/**
 The ranging sequencer: three channels and the round-robin index of the channel to
 fire next (`sonar[]` and `next_sonar` in src/dreamster.cpp). One call of `Tick` is
 one call of the timer callback: every channel steps once, in index order, and if
 they all stand by afterwards the channel at the index is promoted to BeginTrigger
 and the index advances, wrapping to 0.
 */
module Scheduler {
  import opened Ranging

  /** Number of ranging channels (A, B and C). */
  const NumSonars: nat := 3

  datatype Sequencer = Sequencer(sonars: seq<Sonar>, next: nat)

  /** Whether a tick promoted a channel to BeginTrigger, and which one. */
  datatype Promotion = NoPromotion | Promoted(channel: nat)

  /** What one timer tick produces: the new sequencer, the channels whose trigger
      line was pulsed, and the channel promoted to BeginTrigger, if any. */
  datatype TickOutcome = TickOutcome(sequencer: Sequencer, fired: set<nat>, promoted: Promotion)

  predicate WellFormed(q: Sequencer) {
    |q.sonars| == NumSonars && q.next < NumSonars
  }

  /** The echo levels read in one tick, one per channel. */
  predicate ValidSample(echo: seq<Level>) {
    |echo| == NumSonars
  }

  predicate ValidTrace(echoes: seq<seq<Level>>) {
    forall k :: 0 <= k < |echoes| ==> ValidSample(echoes[k])
  }

  /** The sequencer as declared: every channel idle, channel A first. */
  const Initial: Sequencer := Sequencer([Idle, Idle, Idle], 0)

  predicate AllStandby(sonars: seq<Sonar>) {
    forall i :: 0 <= i < |sonars| ==> sonars[i].phase == Standby
  }

  /** At most one channel is outside Standby. */
  predicate MutuallyExclusive(q: Sequencer) {
    forall i, j :: 0 <= i < j < |q.sonars| ==> q.sonars[i].phase == Standby || q.sonars[j].phase == Standby
  }

  /** The index after `next`, as the callback computes it: increment, then wrap. */
  function Advance(next: nat): nat {
    if next + 1 == NumSonars then 0 else next + 1
  }

  /** The channel promoted most recently before the index reached `next`. */
  function Previous(next: nat): nat {
    (next + NumSonars - 1) % NumSonars
  }

  function StepAll(sonars: seq<Sonar>, echo: seq<Level>): seq<Sonar>
    requires |sonars| == |echo|
  {
    seq(|sonars|, i requires 0 <= i < |sonars| => Step(sonars[i], echo[i]))
  }

  /** The channels whose trigger line a tick pulses: those starting it in BeginTrigger. */
  function Pulsed(sonars: seq<Sonar>): set<nat> {
    set i: nat | i < |sonars| && sonars[i].phase == BeginTrigger
  }

  /** One call of the timer callback. */
  function Tick(q: Sequencer, echo: seq<Level>): (r: TickOutcome)
    requires WellFormed(q) && ValidSample(echo)
    ensures WellFormed(r.sequencer)
    ensures r.promoted.Promoted? <==> AllStandby(StepAll(q.sonars, echo))
    ensures r.promoted.Promoted? ==> r.promoted.channel == q.next && r.sequencer.next == (q.next + 1) % NumSonars
    ensures r.promoted.NoPromotion? ==> r.sequencer.next == q.next
    ensures r.promoted.Promoted? ==> r.sequencer.sonars[q.next].phase == BeginTrigger
  {
    var stepped := StepAll(q.sonars, echo);
    var fired := Pulsed(q.sonars);
    if AllStandby(stepped) then
      TickOutcome(Sequencer(stepped[q.next := stepped[q.next].(phase := BeginTrigger)], Advance(q.next)),
                  fired, Promoted(q.next))
    else
      TickOutcome(Sequencer(stepped, q.next), fired, NoPromotion)
  }

  /** The sequencer after one tick per sample of `echoes`. */
  function Run(q: Sequencer, echoes: seq<seq<Level>>): (r: Sequencer)
    requires WellFormed(q) && ValidTrace(echoes)
    ensures WellFormed(r)
    decreases |echoes|
  {
    if echoes == [] then q else Run(Tick(q, echoes[0]).sequencer, echoes[1..])
  }

  /** The promotion of one tick as a list of zero or one channels. */
  function Promoted1(p: Promotion): seq<nat> {
    if p.Promoted? then [p.channel] else []
  }

  /** The channels promoted during a run, in order. */
  function Promotions(q: Sequencer, echoes: seq<seq<Level>>): seq<nat>
    requires WellFormed(q) && ValidTrace(echoes)
    decreases |echoes|
  {
    if echoes == [] then []
    else
      var o := Tick(q, echoes[0]);
      Promoted1(o.promoted) + Promotions(o.sequencer, echoes[1..])
  }

  /** What holds between ticks: every channel record is valid, and a channel outside
      Standby is the one promoted last, so at most one channel is busy. */
  predicate Inv(q: Sequencer) {
    && WellFormed(q)
    && (forall i :: 0 <= i < NumSonars ==> Valid(q.sonars[i]))
    && (forall i :: 0 <= i < NumSonars && q.sonars[i].phase != Standby ==> i == Previous(q.next))
  }

  lemma InitialInv()
    ensures Inv(Initial)
  {
  }

  /** Each tick keeps the invariant, whatever the echo lines do. */
  lemma TickPreservesInv(q: Sequencer, echo: seq<Level>)
    requires Inv(q) && ValidSample(echo)
    ensures Inv(Tick(q, echo).sequencer)
  {
    var stepped := StepAll(q.sonars, echo);
    var q' := Tick(q, echo).sequencer;
    forall i | 0 <= i < NumSonars
      ensures Valid(stepped[i])
      ensures stepped[i].phase != Standby ==> i == Previous(q.next)
    {
      assert stepped[i] == Step(q.sonars[i], echo[i]);
    }
    if AllStandby(stepped) {
      assert Previous(Advance(q.next)) == q.next;
      forall i | 0 <= i < NumSonars
        ensures Valid(q'.sonars[i])
        ensures q'.sonars[i].phase != Standby ==> i == Previous(q'.next)
      {
        assert stepped[i].phase == Standby;
      }
    }
  }

  /** A channel that a tick does not promote just takes its own step. */
  lemma UnpromotedChannelSteps(q: Sequencer, echo: seq<Level>, i: nat)
    requires WellFormed(q) && ValidSample(echo) && i < NumSonars
    requires Tick(q, echo).promoted.NoPromotion? || i != q.next
    ensures Tick(q, echo).sequencer.sonars[i] == Step(q.sonars[i], echo[i])
  {
  }

  /** Under the invariant, a channel that a tick moves into WaitingEcho enters it with a
      zero counter, so the 17-tick bound of `Ranging.WaitingEchoLiveness` applies to it;
      a channel a tick moves into Cooldown enters it with a zero counter, so
      `Ranging.CooldownDuration` applies to it. */
  lemma ChannelsEnterPhasesCleared(q: Sequencer, echo: seq<Level>, i: nat)
    requires Inv(q) && ValidSample(echo) && i < NumSonars
    ensures var s' := Tick(q, echo).sequencer.sonars[i];
            && (q.sonars[i].phase != WaitingEcho && s'.phase == WaitingEcho ==> s'.ticks == 0)
            && (q.sonars[i].phase != Cooldown && s'.phase == Cooldown ==> s'.ticks == 0)
  {
    if Tick(q, echo).promoted.NoPromotion? || i != q.next {
      UnpromotedChannelSteps(q, echo, i);
    }
  }

  lemma {:induction false} RunPreservesInv(q: Sequencer, echoes: seq<seq<Level>>)
    requires Inv(q) && ValidTrace(echoes)
    ensures Inv(Run(q, echoes))
    decreases |echoes|
  {
    if echoes != [] {
      TickPreservesInv(q, echoes[0]);
      RunPreservesInv(Tick(q, echoes[0]).sequencer, echoes[1..]);
    }
  }

  /** Mutual exclusion: from start-up, after any number of ticks and under any echo
      input, at most one channel is outside Standby, and every record is valid (so
      stored distances are at most 400 and no counter leaves 16 bits). */
  lemma MutualExclusion(echoes: seq<seq<Level>>)
    requires ValidTrace(echoes)
    ensures MutuallyExclusive(Run(Initial, echoes))
    ensures forall i :: 0 <= i < NumSonars ==> Valid(Run(Initial, echoes).sonars[i])
    ensures forall i :: 0 <= i < NumSonars ==> Run(Initial, echoes).sonars[i].distance <= MaxDistance
  {
    RunPreservesInv(Initial, echoes);
  }

  /** A promotion happens only in a tick whose channel steps leave all channels in
      Standby; it promotes exactly the indexed channel and leaves the others standing by. */
  lemma PromotionStartsOneChannel(q: Sequencer, echo: seq<Level>)
    requires Inv(q) && ValidSample(echo)
    ensures Tick(q, echo).promoted.Promoted? ==>
              forall i :: 0 <= i < NumSonars ==>
                Tick(q, echo).sequencer.sonars[i].phase == (if i == q.next then BeginTrigger else Standby)
    ensures Tick(q, echo).promoted.NoPromotion? ==> !AllStandby(Tick(q, echo).sequencer.sonars)
  {
  }

  /** At most one trigger pulse per tick, and only from the channel promoted last. */
  lemma OnePulsePerTick(q: Sequencer, echo: seq<Level>)
    requires Inv(q) && ValidSample(echo)
    ensures Tick(q, echo).fired <= {Previous(q.next)}
  {
  }

  /** The tick after a promotion pulses the promoted channel's trigger, and only it. */
  lemma PulseFollowsPromotion(q: Sequencer, echo: seq<Level>, echo': seq<Level>)
    requires Inv(q) && ValidSample(echo) && ValidSample(echo')
    requires Tick(q, echo).promoted.Promoted?
    ensures Tick(Tick(q, echo).sequencer, echo').fired == {q.next}
  {
    var q' := Tick(q, echo).sequencer;
    PromotionStartsOneChannel(q, echo);
    assert q.next in Tick(q', echo').fired;
  }

  /** Round robin: the k-th promotion of a run is channel `(next + k) mod 3`, and the
      index ends advanced by the number of promotions, modulo 3. */
  lemma RoundRobinOrder(q: Sequencer, echoes: seq<seq<Level>>)
    requires WellFormed(q) && ValidTrace(echoes)
    ensures CyclesFrom(Promotions(q, echoes), q.next)
    ensures Run(q, echoes).next == (q.next + |Promotions(q, echoes)|) % NumSonars
  {
    PromotionsCycle(q, echoes);
    IndexCountsPromotions(q, echoes);
  }

  lemma {:induction false} PromotionsCycle(q: Sequencer, echoes: seq<seq<Level>>)
    requires WellFormed(q) && ValidTrace(echoes)
    ensures CyclesFrom(Promotions(q, echoes), q.next)
    decreases |echoes|
  {
    if echoes != [] {
      var o := Tick(q, echoes[0]);
      var rest := Promotions(o.sequencer, echoes[1..]);
      PromotionsCycle(o.sequencer, echoes[1..]);
      RoundRobinCons(q.next, o.promoted, o.sequencer.next, rest);
      assert Promotions(q, echoes) == Promoted1(o.promoted) + rest;
    }
  }

  lemma {:induction false} IndexCountsPromotions(q: Sequencer, echoes: seq<seq<Level>>)
    requires WellFormed(q) && ValidTrace(echoes)
    ensures IndexAfter(q.next, |Promotions(q, echoes)|, Run(q, echoes).next)
    decreases |echoes|
  {
    if echoes == [] {
      assert IndexAfter(q.next, 0, q.next);
    } else {
      var o := Tick(q, echoes[0]);
      var rest := Promotions(o.sequencer, echoes[1..]);
      IndexCountsPromotions(o.sequencer, echoes[1..]);
      TickAdvancesIndex(q, echoes[0]);
      IndexStep(q.next, o.sequencer.next, |Promoted1(o.promoted)|, |rest|, Run(o.sequencer, echoes[1..]).next);
      assert Promotions(q, echoes) == Promoted1(o.promoted) + rest;
      assert Run(q, echoes) == Run(o.sequencer, echoes[1..]);
    }
  }

  /** `final` is index `n` advanced `count` times, modulo the channel count. */
  predicate IndexAfter(n: nat, count: nat, final: nat) {
    final == (n + count) % NumSonars
  }

  /** A tick advances the index once per promotion it makes. */
  lemma TickAdvancesIndex(q: Sequencer, echo: seq<Level>)
    requires WellFormed(q) && ValidSample(echo)
    ensures IndexAfter(q.next, |Promoted1(Tick(q, echo).promoted)|, Tick(q, echo).sequencer.next)
  {
  }

  /** One tick's promotion in front of a round-robin run keeps it round robin. */
  lemma RoundRobinCons(n: nat, p: Promotion, n': nat, rest: seq<nat>)
    requires n < NumSonars
    requires p.Promoted? ==> p.channel == n && n' == (n + 1) % NumSonars
    requires p.NoPromotion? ==> n' == n
    requires CyclesFrom(rest, n')
    ensures CyclesFrom(Promoted1(p) + rest, n)
  {
    if p.Promoted? {
      assert Promoted1(p) + rest == [n] + rest;
      ConsCycle(n, rest);
      ModShift(n, |rest|);
    } else {
      assert Promoted1(p) + rest == rest;
    }
  }

  /** `p` lists channel indices in round-robin order starting at channel `n`. */
  predicate CyclesFrom(p: seq<nat>, n: nat) {
    forall k :: 0 <= k < |p| ==> p[k] == (n + k) % NumSonars
  }

  /** Prepending index n to a cycle that starts after n gives a cycle starting at n. */
  lemma ConsCycle(n: nat, rest: seq<nat>)
    requires n < NumSonars
    requires CyclesFrom(rest, (n + 1) % NumSonars)
    ensures CyclesFrom([n] + rest, n)
  {
    forall k | 1 <= k < |[n] + rest|
      ensures ([n] + rest)[k] == (n + k) % NumSonars
    {
      ModShift(n, k - 1);
    }
  }

  /** Advancing the index by a and then by b advances it by a + b. */
  lemma IndexStep(n: nat, n': nat, a: nat, b: nat, final: nat)
    requires IndexAfter(n, a, n') && IndexAfter(n', b, final)
    ensures IndexAfter(n, a + b, final)
  {
  }

  lemma ModShift(a: nat, b: nat)
    ensures ((a + 1) % NumSonars + b) % NumSonars == (a + 1 + b) % NumSonars
  {
  }

  /** From start-up the promotions go A, B, C, A, ...: the k-th is channel k mod 3. */
  lemma StartupOrder(echoes: seq<seq<Level>>)
    requires ValidTrace(echoes)
    ensures forall k :: 0 <= k < |Promotions(Initial, echoes)| ==> Promotions(Initial, echoes)[k] == k % NumSonars
  {
    RoundRobinOrder(Initial, echoes);
  }

  /** The first tick after start-up promotes channel A and leaves B and C in Standby. */
  lemma FirstTick(echo: seq<Level>)
    requires ValidSample(echo)
    ensures Tick(Initial, echo).promoted == Promoted(0)
    ensures Tick(Initial, echo).sequencer.sonars[0].phase == BeginTrigger
    ensures Tick(Initial, echo).sequencer.sonars[1].phase == Standby
    ensures Tick(Initial, echo).sequencer.sonars[2].phase == Standby
    ensures Tick(Initial, echo).sequencer.next == 1
  {
    assert AllStandby(StepAll(Initial.sonars, echo));
  }

  /** Ticks the busy channels still need before all of them stand by. */
  function TotalBudget(q: Sequencer): (b: nat)
    requires WellFormed(q)
    ensures b == 0 <==> AllStandby(q.sonars)
    ensures Inv(q) ==> b <= MaxBusyTicks
  {
    Budget(q.sonars[0]) + Budget(q.sonars[1]) + Budget(q.sonars[2])
  }

  /** Splitting a run in two splits its promotions in two. */
  lemma {:induction false} PromotionsAppend(q: Sequencer, a: seq<seq<Level>>, b: seq<seq<Level>>)
    requires WellFormed(q) && ValidTrace(a) && ValidTrace(b)
    ensures ValidTrace(a + b)
    ensures Promotions(q, a + b) == Promotions(q, a) + Promotions(Run(q, a), b)
    decreases |a|
  {
    if a != [] {
      assert (a + b)[1..] == a[1..] + b;
      PromotionsAppend(Tick(q, a[0]).sequencer, a[1..], b);
    } else {
      assert a + b == b;
    }
  }

  /** A tick that promotes nobody leaves the busy channels a strictly smaller budget. */
  lemma IdleTickSpendsBudget(q: Sequencer, echo: seq<Level>)
    requires Inv(q) && ValidSample(echo)
    requires Tick(q, echo).promoted.NoPromotion?
    ensures TotalBudget(Tick(q, echo).sequencer) < TotalBudget(q)
  {
    var stepped := StepAll(q.sonars, echo);
    assert Tick(q, echo).sequencer.sonars == stepped;
    forall i | 0 <= i < NumSonars
      ensures Budget(stepped[i]) <= Budget(q.sonars[i])
      ensures q.sonars[i].phase != Standby ==> Budget(stepped[i]) < Budget(q.sonars[i])
    {
      StepSpendsBudget(q.sonars[i], echo[i]);
    }
    assert !AllStandby(q.sonars);
  }

  lemma {:induction false} PromotionWithinBudget(q: Sequencer, echoes: seq<seq<Level>>)
    requires Inv(q) && ValidTrace(echoes)
    requires |echoes| >= 1 && |echoes| >= TotalBudget(q)
    ensures Promotions(q, echoes) != []
    decreases |echoes|
  {
    var o := Tick(q, echoes[0]);
    if o.promoted.NoPromotion? {
      IdleTickSpendsBudget(q, echoes[0]);
      TickPreservesInv(q, echoes[0]);
      PromotionWithinBudget(o.sequencer, echoes[1..]);
    }
  }

  /** Bounded waiting: from any state the invariant admits, some channel is promoted
      within `MaxBusyTicks` (7227) ticks, whatever the echo lines do. */
  lemma PromotionWithin(q: Sequencer, echoes: seq<seq<Level>>)
    requires Inv(q) && ValidTrace(echoes)
    requires |echoes| >= MaxBusyTicks
    ensures Promotions(q, echoes) != []
  {
    PromotionWithinBudget(q, echoes);
  }

  lemma {:induction false} ManyPromotions(q: Sequencer, echoes: seq<seq<Level>>, n: nat)
    requires Inv(q) && ValidTrace(echoes)
    requires |echoes| >= n * MaxBusyTicks
    ensures |Promotions(q, echoes)| >= n
    decreases n
  {
    if n > 0 {
      var a := echoes[..MaxBusyTicks];
      var b := echoes[MaxBusyTicks..];
      assert ValidTrace(a) && ValidTrace(b) && echoes == a + b;
      assert |b| >= (n - 1) * MaxBusyTicks by {
        assert n * MaxBusyTicks == (n - 1) * MaxBusyTicks + MaxBusyTicks;
      }
      RunPreservesInv(q, a);
      var r := Run(q, a);
      assert |Promotions(q, a)| >= 1 by {
        PromotionWithin(q, a);
      }
      assert |Promotions(r, b)| >= n - 1 by {
        ManyPromotions(r, b, n - 1);
      }
      assert Promotions(q, echoes) == Promotions(q, a) + Promotions(r, b) by {
        PromotionsAppend(q, a, b);
      }
    }
  }

  /** Fairness: every channel is promoted within `3 * MaxBusyTicks` ticks. */
  lemma EveryChannelServed(q: Sequencer, echoes: seq<seq<Level>>, i: nat)
    requires Inv(q) && ValidTrace(echoes)
    requires |echoes| >= NumSonars * MaxBusyTicks
    requires i < NumSonars
    ensures i in Promotions(q, echoes)
  {
    ManyPromotions(q, echoes, NumSonars);
    RoundRobinOrder(q, echoes);
    CycleCovers(Promotions(q, echoes), q.next, i);
  }

  /** Three consecutive round-robin promotions cover every channel. */
  lemma CycleCovers(p: seq<nat>, n: nat, i: nat)
    requires CyclesFrom(p, n) && |p| >= NumSonars
    requires n < NumSonars && i < NumSonars
    ensures i in p
  {
    var k := (i + NumSonars - n) % NumSonars;
    assert p[k] == (n + k) % NumSonars == i;
  }
}
