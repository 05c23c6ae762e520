/** The fuzzing loop (fuzzer/main.c, fuzzer/AMQP.c) under strategy 'n': how often it can go round. */
module Driver {
  import opened Octets
  import opened CText

  /** One reading of the counter and of the running flag, twice, as check_strat's loop makes them. */
  datatype Sample = Sample(count: nat, running: bool, stillRunning: bool)

  predicate Continues(s: Sample, stratval: int) { s.count < stratval && s.running && s.stillRunning }

  predicate StopsAt(samples: seq<Sample>, k: nat, stratval: int)
    requires k < |samples|
  {
    !Continues(samples[k], stratval) && forall i | 0 <= i < k :: Continues(samples[i], stratval)
  }

  /** check_strat: poll until the count is reached or the listener has stopped; the count returned is
      the one read then. None: it is still polling when the samples end. */
  method CheckStrat(samples: seq<Sample>, stratval: int) returns (val: Option<nat>)
    ensures val == None <==> forall i | 0 <= i < |samples| :: Continues(samples[i], stratval)
    ensures val.Some? ==>
              exists k :: 0 <= k < |samples| && StopsAt(samples, k, stratval) && val.value == samples[k].count
  {
    for i := 0 to |samples|
      invariant forall k | 0 <= k < i :: Continues(samples[k], stratval)
    {
      var s := samples[i];
      if !(s.count < stratval && s.running) {
        assert StopsAt(samples, i, stratval);
        return Some(s.count);
      }
      if !s.stillRunning {
        assert StopsAt(samples, i, stratval);
        return Some(s.count);
      }
    }
    val := None;
  }

  /** One round: what fuzz() returned, and the packet total once it was over. */
  datatype Round = Round(result: int, total: nat)

  datatype Ending = Reached | DeltaOutOfRange | NoPackets | StillGoing

  /** The total before a round; zero_packet_count makes the first one 0. */
  function Before(rounds: seq<Round>, k: nat): nat
    requires k <= |rounds|
  {
    if k == 0 then 0 else rounds[k - 1].total
  }

  /** What the rounds before had returned; the count starts at 0. */
  function Counted(rounds: seq<Round>, k: nat): int
    requires k <= |rounds|
  {
    if k == 0 then 0 else rounds[k - 1].result
  }

  /** What fuzz() returns was sampled while it ran. */
  predicate Sampled(rounds: seq<Round>)
  {
    forall k | 0 <= k < |rounds| :: Before(rounds, k) <= rounds[k].result <= rounds[k].total
  }

  /** How far round k has brought the count. */
  function Advance(rounds: seq<Round>, k: nat): int
    requires k < |rounds|
  {
    rounds[k].result - Counted(rounds, k)
  }

  /** The first rounds advance the count by less than 2^31 each. */
  predicate SmallSteps(rounds: seq<Round>, n: nat)
    requires n <= |rounds|
  {
    forall k | 0 <= k < n :: Advance(rounds, k) < 0x8000_0000
  }

  /** Two truncations to int stand between the count and delta; for a count that has not gone back
      they do no harm exactly when it has advanced by less than 2^31. */
  lemma DeltaExact(result: int, currval: int)
    requires 0 <= currval <= result
    ensures Signed32(Signed32(result) - currval) == result - currval <==> result - currval < 0x8000_0000
  {
    SignedDifference(result, currval);
  }

  lemma SignedDifference(v: int, w: int)
    ensures Signed32(Signed32(v) - w) == Signed32(v - w)
  {
    var q := (v + 0x8000_0000) / 0x1_0000_0000;
    assert Signed32(v) == v - q * 0x1_0000_0000;
    SignedPeriodic(v - w, q);
  }

  lemma SignedPeriodic(v: int, q: int)
    ensures Signed32(v - q * 0x1_0000_0000) == Signed32(v)
  {
    var u := v + 0x8000_0000;
    assert u - q * 0x1_0000_0000 == 0x1_0000_0000 * (u / 0x1_0000_0000 - q) + u % 0x1_0000_0000;
  }

  /** Both truncations: fuzz() returns an int, and so is delta. */
  function Delta(result: int, currval: int): int { Signed32(Signed32(result) - currval) }

  /** Short of the count by whole turns of an int. */
  predicate Behind(currval: int, counted: int)
  {
    currval <= counted && (counted - currval) % 0x1_0000_0000 == 0
  }

  /** The difference the loop takes for the count's advance: it never exceeds it, agrees with it
      modulo 2^32, and once it has fallen short the count is never caught up with. */
  lemma DeltaBehind(result: int, currval: int, counted: int)
    requires Behind(currval, counted) && counted <= result
    ensures var delta := Delta(result, currval);
            && Behind(currval + delta, result)
            && (currval + delta == result <==> currval == counted && result - counted < 0x8000_0000)
  {
    SignedDifference(result, currval);
    var q := (counted - currval) / 0x1_0000_0000;
    SignedPeriodic(result - currval, q);
  }

  /** How the loop of fuzz_with_strategy ends, how often its body has run, and the count it prints. */
  datatype Course = Course(ending: Ending, bodies: nat, currval: int)

  /** The loop from its round k on. */
  function Loop(rounds: seq<Round>, k: nat, stratval: int, currval: int): (c: Course)
    requires k <= |rounds|
    ensures k <= c.bodies <= |rounds| && (k < |rounds| ==> k < c.bodies)
    decreases |rounds| - k
  {
    if k == |rounds| then Course(StillGoing, k, currval)
    else
      var delta := Delta(rounds[k].result, currval);
      if delta < 0 || delta > 2 * stratval then Course(DeltaOutOfRange, k + 1, currval)
      else if rounds[k].total == Before(rounds, k) then Course(NoPackets, k + 1, currval)
      else if currval + delta >= stratval || delta >= stratval then Course(Reached, k + 1, currval + delta)
      else Loop(rounds, k + 1, stratval, currval + delta)
  }

  /** Rounds that bring the count forward by 2^32 packets each. */
  function Wrapping(n: nat): (rounds: seq<Round>)
    ensures |rounds| == n
    ensures forall k | 0 <= k < n :: rounds[k] == Round((k + 1) * 0x1_0000_0000, (k + 1) * 0x1_0000_0000)
  {
    seq(n, k requires 0 <= k => Round((k + 1) * 0x1_0000_0000, (k + 1) * 0x1_0000_0000))
  }

  lemma WrappedDelta(k: nat)
    ensures Delta((k + 1) * 0x1_0000_0000, 0) == 0
  {
    SignedPeriodic(0, -(k + 1));
  }

  lemma WrappingSampled(n: nat)
    ensures Sampled(Wrapping(n))
  {
    hide Wrapping;
  }

  /** Under them the loop goes on for ever at 0. */
  lemma {:induction false} WrappingExample(n: nat, k: nat, stratval: int)
    requires stratval > 0 && k <= n
    ensures Sampled(Wrapping(n)) && Loop(Wrapping(n), k, stratval, 0) == Course(StillGoing, n, 0)
    decreases n - k
  {
    hide Wrapping, Delta, Sampled;
    WrappingSampled(n);
    if k < n {
      WrappedDelta(k);
      WrappingExample(n, k + 1, stratval);
    }
  }

  /** The count printed after n rounds is the count exactly when all n were small steps. */
  predicate ExactWhenSmall(rounds: seq<Round>, n: nat, currval: int)
    requires n <= |rounds|
  {
    currval == Counted(rounds, n) <==> SmallSteps(rounds, n)
  }

  lemma OneAdvance(rounds: seq<Round>, k: nat, currval: int)
    requires Sampled(rounds) && k < |rounds|
    requires Behind(currval, Counted(rounds, k)) && ExactWhenSmall(rounds, k, currval)
    ensures var next := currval + Delta(rounds[k].result, currval);
            Behind(next, Counted(rounds, k + 1)) && ExactWhenSmall(rounds, k + 1, next)
  {
    CountedWithin(rounds, k);
    DeltaBehind(rounds[k].result, currval, Counted(rounds, k));
    hide Delta, Behind;
    assert SmallSteps(rounds, k + 1) <==> SmallSteps(rounds, k) && Advance(rounds, k) < 0x8000_0000;
  }

  lemma CountedWithin(rounds: seq<Round>, k: nat)
    requires Sampled(rounds) && k < |rounds|
    ensures Counted(rounds, k) <= Before(rounds, k) <= rounds[k].result
  {
  }

  /* --- How often the loop can go round --- */

  /** How soon a loop ends that makes progress, and on what. */
  predicate Bounded(rounds: seq<Round>, stratval: int, c: Course)
    requires c.bodies <= |rounds|
  {
    && c.bodies <= (if stratval > 0 then stratval else 0) + 1
    && (c.ending == StillGoing ==> c.bodies == |rounds| <= if stratval > 0 then stratval else 0)
    && (c.ending == Reached ==> stratval <= c.currval)
  }

  lemma DeltaIsAdvance(rounds: seq<Round>, k: nat)
    requires Sampled(rounds) && k < |rounds| && 0 <= Counted(rounds, k) && Advance(rounds, k) < 0x8000_0000
    ensures Delta(rounds[k].result, Counted(rounds, k)) == Advance(rounds, k) >= 0
  {
    CountedWithin(rounds, k);
    DeltaExact(rounds[k].result, Counted(rounds, k));
  }

  lemma SmallStep(rounds: seq<Round>, n: nat, k: nat)
    requires k < n <= |rounds| && SmallSteps(rounds, n)
    ensures Advance(rounds, k) < 0x8000_0000
  {
  }

  /** Before round k the count is below the goal and has come k - 1 packets or more; the totals grow
      with every round. */
  predicate OnTheWay(rounds: seq<Round>, k: nat, stratval: int)
    requires k <= |rounds|
  {
    && k <= Before(rounds, k) && k - 1 <= Counted(rounds, k) && 0 <= Counted(rounds, k)
    && (k > 0 ==> Counted(rounds, k) < stratval)
  }

  lemma StillOnTheWay(rounds: seq<Round>, k: nat, stratval: int)
    requires Sampled(rounds) && k < |rounds| && OnTheWay(rounds, k, stratval)
    requires rounds[k].total != Before(rounds, k) && rounds[k].result < stratval
    ensures OnTheWay(rounds, k + 1, stratval)
  {
    CountedWithin(rounds, k);
  }

  /** Every round but the last brings a packet, so small steps reach the goal in time. */
  lemma {:induction false} SmallStepsBound(rounds: seq<Round>, k: nat, stratval: int)
    requires Sampled(rounds) && k <= |rounds| && OnTheWay(rounds, k, stratval)
    ensures var c := Loop(rounds, k, stratval, Counted(rounds, k));
            SmallSteps(rounds, c.bodies) ==> Bounded(rounds, stratval, c)
    decreases |rounds| - k
  {
    hide Delta, SmallSteps, Sampled;
    var currval := Counted(rounds, k);
    var c := Loop(rounds, k, stratval, currval);
    if k < |rounds| && SmallSteps(rounds, c.bodies) {
      SmallStep(rounds, c.bodies, k);
      DeltaIsAdvance(rounds, k);
      var delta := Advance(rounds, k);
      if delta <= 2 * stratval && rounds[k].total != Before(rounds, k) && currval + delta < stratval {
        StillOnTheWay(rounds, k, stratval);
        SmallStepsBound(rounds, k + 1, stratval);
      }
    }
  }

  /** A round that the loop should not go on after: the count has leapt, no packet has come, or the goal
      is reached. */
  predicate Halts(rounds: seq<Round>, k: nat, stratval: int)
    requires k < |rounds|
  {
    || Advance(rounds, k) > 2 * stratval
    || rounds[k].total == Before(rounds, k)
    || rounds[k].result >= stratval
  }

  /** The loop has ended with the first such round, for the first of the three reasons that holds of
      it; without one it has gone through all rounds. */
  predicate FirstHalt(rounds: seq<Round>, stratval: int, c: Course)
    requires c.bodies <= |rounds|
  {
    && (forall i | 0 <= i < c.bodies - 1 :: !Halts(rounds, i, stratval))
    && if c.bodies == 0 || !Halts(rounds, c.bodies - 1, stratval)
       then c.ending == StillGoing && c.bodies == |rounds|
       else
         var last := c.bodies - 1;
         c.ending == if Advance(rounds, last) > 2 * stratval then DeltaOutOfRange
                     else if rounds[last].total == Before(rounds, last) then NoPackets
                     else Reached
  }

  lemma {:induction false} SmallStepsHalt(rounds: seq<Round>, k: nat, stratval: int)
    requires Sampled(rounds) && k <= |rounds| && forall i | 0 <= i < k :: !Halts(rounds, i, stratval)
    ensures var c := Loop(rounds, k, stratval, Counted(rounds, k));
            SmallSteps(rounds, c.bodies) ==> FirstHalt(rounds, stratval, c)
    decreases |rounds| - k
  {
    hide Delta, SmallSteps, Sampled;
    var currval := Counted(rounds, k);
    var c := Loop(rounds, k, stratval, currval);
    if k < |rounds| && SmallSteps(rounds, c.bodies) {
      SmallStep(rounds, c.bodies, k);
      CountedWithin(rounds, k);
      CountedPositive(rounds, k);
      DeltaIsAdvance(rounds, k);
      if !Halts(rounds, k, stratval) { SmallStepsHalt(rounds, k + 1, stratval); }
    }
  }

  lemma CountedPositive(rounds: seq<Round>, k: nat)
    requires Sampled(rounds) && k <= |rounds|
    ensures 0 <= Counted(rounds, k)
  {
    if k > 0 { CountedWithin(rounds, k - 1); }
  }

  /** The count as it is printed after n rounds: the sum of the advances as an int holds them. */
  function Printed(rounds: seq<Round>, n: nat): int
    requires n <= |rounds|
  {
    if n == 0 then 0 else Printed(rounds, n - 1) + Signed32(Advance(rounds, n - 1))
  }

  predicate Leaps(rounds: seq<Round>, k: nat, stratval: int)
    requires k < |rounds|
  {
    !(0 <= Signed32(Advance(rounds, k)) <= 2 * stratval)
  }

  predicate Silent(rounds: seq<Round>, k: nat)
    requires k < |rounds|
  {
    rounds[k].total == Before(rounds, k)
  }

  predicate Arrives(rounds: seq<Round>, k: nat, stratval: int)
    requires k < |rounds|
  {
    Printed(rounds, k + 1) >= stratval || Signed32(Advance(rounds, k)) >= stratval
  }

  predicate Stays(rounds: seq<Round>, k: nat, stratval: int)
    requires k < |rounds|
  {
    !Leaps(rounds, k, stratval) && !Silent(rounds, k) && !Arrives(rounds, k, stratval)
  }

  /** Whatever the steps: the course ends with the first round that does not let the loop go on, for
      the first reason there is, and prints the sum of the rounds before - and of that one, if it has
      arrived. */
  predicate Settles(rounds: seq<Round>, stratval: int, c: Course)
    requires c.bodies <= |rounds|
  {
    && (forall i | 0 <= i < c.bodies - 1 :: Stays(rounds, i, stratval))
    && if c.bodies == 0 || Stays(rounds, c.bodies - 1, stratval)
       then c == Course(StillGoing, |rounds|, Printed(rounds, |rounds|))
       else
         var last := c.bodies - 1;
         && c.currval == Printed(rounds, if c.ending == Reached then c.bodies else last)
         && c.ending == if Leaps(rounds, last, stratval) then DeltaOutOfRange
                        else if Silent(rounds, last) then NoPackets
                        else Reached
  }

  lemma {:induction false} CourseSettles(rounds: seq<Round>, k: nat, stratval: int)
    requires Sampled(rounds) && k <= |rounds| && forall i | 0 <= i < k :: Stays(rounds, i, stratval)
    requires Behind(Printed(rounds, k), Counted(rounds, k))
    ensures Settles(rounds, stratval, Loop(rounds, k, stratval, Printed(rounds, k)))
    decreases |rounds| - k
  {
    hide Delta, Sampled, Behind;
    if k < |rounds| {
      var currval, result := Printed(rounds, k), rounds[k].result;
      CountedWithin(rounds, k);
      DeltaBehind(result, currval, Counted(rounds, k));
      DeltaSigned(rounds, k, currval);
      if Stays(rounds, k, stratval) { CourseSettles(rounds, k + 1, stratval); }
    }
  }

  lemma DeltaSigned(rounds: seq<Round>, k: nat, currval: int)
    requires k < |rounds| && Behind(currval, Counted(rounds, k))
    ensures Delta(rounds[k].result, currval) == Signed32(Advance(rounds, k))
  {
    SignedDifference(rounds[k].result, currval);
    var q := (Counted(rounds, k) - currval) / 0x1_0000_0000;
    SignedPeriodic(rounds[k].result - currval, q);
  }

  /** A course that reaches its goal, or the end of the rounds, prints the count exactly when all its
      steps were small; one that meets no packets has a round without. */
  predicate Prints(rounds: seq<Round>, c: Course)
    requires c.bodies <= |rounds|
  {
    && (c.ending == Reached || c.ending == StillGoing ==> ExactWhenSmall(rounds, c.bodies, c.currval))
    && (c.ending == NoPackets ==> c.bodies > 0 && rounds[c.bodies - 1].total == Before(rounds, c.bodies - 1))
  }

  lemma {:induction false} CoursePrints(rounds: seq<Round>, k: nat, stratval: int, currval: int)
    requires Sampled(rounds) && k <= |rounds|
    requires Behind(currval, Counted(rounds, k)) && ExactWhenSmall(rounds, k, currval)
    ensures Prints(rounds, Loop(rounds, k, stratval, currval))
    decreases |rounds| - k
  {
    hide Delta, Sampled, Behind, ExactWhenSmall, Counted;
    if k < |rounds| {
      OneAdvance(rounds, k, currval);
      var delta := Delta(rounds[k].result, currval);
      if delta >= 0 && currval + delta < stratval { CoursePrints(rounds, k + 1, stratval, currval + delta); }
    }
  }

  /** The loop ends where it should; and in small steps in time, and by the count itself. */
  predicate Prompt(rounds: seq<Round>, stratval: int, c: Course)
    requires c.bodies <= |rounds|
  {
    && Settles(rounds, stratval, c)
    && (SmallSteps(rounds, c.bodies) ==> Bounded(rounds, stratval, c) && FirstHalt(rounds, stratval, c))
  }

  lemma PromptFromTheStart(rounds: seq<Round>, stratval: int)
    requires Sampled(rounds)
    ensures Prompt(rounds, stratval, Loop(rounds, 0, stratval, 0)) && Prints(rounds, Loop(rounds, 0, stratval, 0))
  {
    hide Bounded, FirstHalt, SmallSteps, Loop, Settles, Prints;
    AtFirst(rounds);
    CoursePrints(rounds, 0, stratval, 0);
    CourseSettles(rounds, 0, stratval);
    SmallStepsBound(rounds, 0, stratval);
    SmallStepsHalt(rounds, 0, stratval);
  }

  lemma LoopOnce(rounds: seq<Round>, k: nat, stratval: int, currval: int)
    requires k < |rounds|
    ensures var delta := Delta(rounds[k].result, currval);
            Loop(rounds, k, stratval, currval)
            == if delta < 0 || delta > 2 * stratval then Course(DeltaOutOfRange, k + 1, currval)
               else if rounds[k].total == Before(rounds, k) then Course(NoPackets, k + 1, currval)
               else if currval + delta >= stratval || delta >= stratval then Course(Reached, k + 1, currval + delta)
               else Loop(rounds, k + 1, stratval, currval + delta)
    ensures Before(rounds, k + 1) == rounds[k].total
  {
    hide Delta;
  }

  lemma LoopOver(rounds: seq<Round>, stratval: int, currval: int)
    ensures Loop(rounds, |rounds|, stratval, currval) == Course(StillGoing, |rounds|, currval)
  {
  }

  lemma AtFirst(rounds: seq<Round>)
    ensures Behind(0, Counted(rounds, 0)) && ExactWhenSmall(rounds, 0, 0) && Before(rounds, 0) == 0
  {
  }

  /** fuzz_with_strategy('n', stratval). The printed progress is the count exactly as long as no
      round has advanced it by 2^31; and then the loop body runs at most stratval + 1 times, and no
      difference comes out negative. */
  method FuzzWithStrategy(rounds: seq<Round>, stratval: int)
    returns (ending: Ending, bodies: nat, currval: int, printableCurrval: int)
    requires Sampled(rounds)
    ensures Course(ending, bodies, currval) == Loop(rounds, 0, stratval, 0)
    ensures bodies <= |rounds| && printableCurrval == currval
    ensures Prompt(rounds, stratval, Course(ending, bodies, currval))
    ensures Prints(rounds, Course(ending, bodies, currval))
  {
    PromptFromTheStart(rounds, stratval);
    hide *;
    currval, printableCurrval, bodies := 0, 0, 0;
    var delta, lastPacketsCount, nextPacketsCount := 0, 0, 0;
    var going := true;
    ghost var whole := Loop(rounds, 0, stratval, 0);
    AtFirst(rounds);
    while going && bodies < |rounds|
      invariant 0 <= bodies <= |rounds| && printableCurrval == currval
      invariant lastPacketsCount == Before(rounds, bodies)
      invariant whole == if going then Loop(rounds, bodies, stratval, currval) else Course(Reached, bodies, currval)
      decreases |rounds| - bodies
    {
      var round := rounds[bodies];
      LoopOnce(rounds, bodies, stratval, currval);
      bodies := bodies + 1;
      delta := Delta(round.result, currval);
      if delta < 0 || delta > 2 * stratval { return DeltaOutOfRange, bodies, currval, printableCurrval; }
      nextPacketsCount := round.total;
      if nextPacketsCount == lastPacketsCount { return NoPackets, bodies, currval, printableCurrval; }
      lastPacketsCount := nextPacketsCount;
      currval := currval + delta;
      printableCurrval := printableCurrval + delta;
      going := currval < stratval && delta < stratval;
    }
    LoopOver(rounds, stratval, currval);
    ending := if going then StillGoing else Reached;
  }
}
