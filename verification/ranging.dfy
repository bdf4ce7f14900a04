/**
 One ultrasonic ranging channel: its record and the state machine that the timer
 interrupt advances by one tick per call (`timer_callback`, src/dreamster.cpp).

 The trigger and echo pins are not part of the record: the level of the echo line
 is an input of `Step`, read at most once per tick, and the trigger pulse is the
 observable fact that a channel was in `BeginTrigger` when the tick started.
 */
module Ranging {

  /** The five phases of a ranging cycle (the `DreamsterSonarStates` enumeration). */
  datatype Phase = BeginTrigger | WaitingEcho | MeasuringPing | Cooldown | Standby

  /** Level of an echo line as read during one tick. */
  datatype Level = Low | High

  /** One channel: last distance in centimetres (0 means no valid echo), phase,
      the working tick counter and the adaptive cooldown length in ticks. */
  datatype Sonar = Sonar(distance: nat, phase: Phase, ticks: nat, cooldownTicks: nat)

  /** WaitingEcho gives up once its counter exceeds this many ticks. */
  const EchoWaitLimit: nat := 16

  /** MeasuringPing gives up once its counter exceeds this many ticks. */
  const MeasureLimit: nat := 800

  /** Largest distance a completed measurement can store. */
  const MaxDistance: nat := MeasureLimit / 2

  /** Largest cooldown the smoothing can produce: eight times the longest ping. */
  const MaxCooldown: nat := 8 * (MeasureLimit + 1)

  /** Number of values of a 16-bit `unsigned int` on the AVR target. */
  const WordLimit: nat := 0x1_0000

  /** A channel as declared: Standby, every counter zero. */
  const Idle: Sonar := Sonar(0, Standby, 0, 0)

  /** The phase a channel moves to when it leaves `p`; leaving Standby is the
      scheduler's promotion, never a step of the channel itself. */
  function Successor(p: Phase): Phase {
    match p
    case BeginTrigger => WaitingEcho
    case WaitingEcho => MeasuringPing
    case MeasuringPing => Cooldown
    case Cooldown => Standby
    case Standby => BeginTrigger
  }

  /** Exponential smoothing of the cooldown toward eight times the last ping. */
  function SmoothCooldown(cooldownTicks: nat, ticks: nat): (r: nat)
    ensures cooldownTicks <= 8 * ticks ==> cooldownTicks <= r <= 8 * ticks
    ensures 8 * ticks <= cooldownTicks ==> 8 * ticks <= r <= cooldownTicks
  {
    (cooldownTicks + ticks * 8) / 2
  }

  /** What holds of every channel record between two ticks. Standby and BeginTrigger
      hold a zero counter: WaitingEcho does not reset it on entry and relies on this. */
  predicate Valid(s: Sonar) {
    && s.distance <= MaxDistance
    && s.cooldownTicks <= MaxCooldown
    && match s.phase
       case Standby => s.ticks == 0
       case BeginTrigger => s.ticks == 0
       case WaitingEcho => s.ticks <= EchoWaitLimit
       case MeasuringPing => 1 <= s.ticks <= MeasureLimit
       case Cooldown => s.ticks <= s.cooldownTicks
  }

  /** One tick of one channel, given the level of its echo line during the tick. */
  function Step(s: Sonar, echo: Level): (r: Sonar)
    ensures Valid(s) ==> Valid(r)
    ensures r.phase == s.phase || r.phase == Successor(s.phase)
    ensures s.phase == Standby ==> r == s
    ensures s.phase != Standby && r.phase == Standby ==> r.ticks == 0
    ensures r.distance != s.distance ==> s.phase == MeasuringPing && r.phase == Cooldown
    ensures r.cooldownTicks != s.cooldownTicks ==> s.phase == MeasuringPing && r.phase == Cooldown
  {
    match s.phase
    case BeginTrigger =>
      s.(phase := WaitingEcho)
    case WaitingEcho =>
      var counted := s.(ticks := s.ticks + 1);
      var heard := if echo == High then counted.(ticks := 1, phase := MeasuringPing) else counted;
      if heard.ticks > EchoWaitLimit then heard.(ticks := 1, phase := MeasuringPing) else heard
    case MeasuringPing =>
      var measured :=
        if echo == High then s.(ticks := s.ticks + 1)
        else s.(distance := s.ticks / 2,
                cooldownTicks := SmoothCooldown(s.cooldownTicks, s.ticks),
                ticks := 0,
                phase := Cooldown);
      if measured.ticks > MeasureLimit then
        measured.(distance := 0,
                  cooldownTicks := SmoothCooldown(measured.cooldownTicks, measured.ticks),
                  ticks := 0,
                  phase := Cooldown)
      else measured
    case Cooldown =>
      var counted := s.(ticks := s.ticks + 1);
      if counted.ticks > s.cooldownTicks then counted.(ticks := 0, phase := Standby) else counted
    case Standby =>
      s
  }

  /** The channel after one step per element of `echoes`, in order. */
  function RunSonar(s: Sonar, echoes: seq<Level>): Sonar
    decreases |echoes|
  {
    if echoes == [] then s else RunSonar(Step(s, echoes[0]), echoes[1..])
  }

  /** Running a prefix of length j is one step followed by a prefix of the rest. */
  lemma RunSonarPrefix(s: Sonar, echoes: seq<Level>, j: nat)
    requires 1 <= j <= |echoes|
    ensures RunSonar(s, echoes[..j]) == RunSonar(Step(s, echoes[0]), echoes[1..][..j - 1])
  {
    assert echoes[..j][1..] == echoes[1..][..j - 1];
  }

  /** The echo line matters only while the channel listens for, or times, an echo. */
  lemma EchoReadOnlyWhileListening(s: Sonar)
    requires s.phase != WaitingEcho && s.phase != MeasuringPing
    ensures Step(s, Low) == Step(s, High)
  {
  }

  /** A Standby channel stays exactly as it is, whatever its echo line does. */
  lemma {:induction false} StandbyIsQuiescent(s: Sonar, echoes: seq<Level>)
    requires s.phase == Standby
    ensures RunSonar(s, echoes) == s
    decreases |echoes|
  {
    if echoes != [] {
      StandbyIsQuiescent(Step(s, echoes[0]), echoes[1..]);
    }
  }

  /** Leaving WaitingEcho: with a counter of at most the limit, the channel reaches
      MeasuringPing with counter 1 after at most `EchoWaitLimit + 1 - ticks` ticks,
      whatever the echo line does, and listens in every tick before that. */
  lemma {:induction false} EchoWaitEnds(s: Sonar, echoes: seq<Level>)
    requires s.phase == WaitingEcho && s.ticks <= EchoWaitLimit
    requires |echoes| > EchoWaitLimit - s.ticks
    ensures exists k :: 1 <= k <= EchoWaitLimit + 1 - s.ticks
                     && RunSonar(s, echoes[..k]) == s.(phase := MeasuringPing, ticks := 1)
                     && (forall j :: 0 <= j < k ==> RunSonar(s, echoes[..j]).phase == WaitingEcho)
    decreases EchoWaitLimit - s.ticks
  {
    var s' := Step(s, echoes[0]);
    RunSonarPrefix(s, echoes, 1);
    assert RunSonar(s, echoes[..0]) == s;
    if s'.phase == MeasuringPing {
      assert RunSonar(s, echoes[..1]) == s.(phase := MeasuringPing, ticks := 1);
    } else {
      assert s' == s.(ticks := s.ticks + 1);
      EchoWaitEnds(s', echoes[1..]);
      var k' :| 1 <= k' <= EchoWaitLimit + 1 - s'.ticks
             && RunSonar(s', echoes[1..][..k']) == s'.(phase := MeasuringPing, ticks := 1)
             && (forall j :: 0 <= j < k' ==> RunSonar(s', echoes[1..][..j]).phase == WaitingEcho);
      RunSonarPrefix(s, echoes, k' + 1);
      forall j | 0 <= j < k' + 1
        ensures RunSonar(s, echoes[..j]).phase == WaitingEcho
      {
        if j > 0 {
          RunSonarPrefix(s, echoes, j);
        }
      }
    }
  }

  /** A channel that has just entered WaitingEcho (counter 0) reaches MeasuringPing
      with counter 1 within 17 ticks, whatever the echo line does. */
  lemma WaitingEchoLiveness(s: Sonar, echoes: seq<Level>)
    requires s.phase == WaitingEcho && s.ticks == 0
    requires |echoes| >= EchoWaitLimit + 1
    ensures exists k :: 1 <= k <= EchoWaitLimit + 1
                     && RunSonar(s, echoes[..k]).phase == MeasuringPing
                     && RunSonar(s, echoes[..k]).ticks == 1
  {
    EchoWaitEnds(s, echoes);
  }

  /** The end of a measurement. A low echo stores half the tick count as the distance;
      reaching the timeout stores 0; both smooth the cooldown with the final count,
      clear the counter and enter Cooldown. Otherwise the count grows by one. */
  lemma MeasurementOutcome(s: Sonar, echo: Level)
    requires s.phase == MeasuringPing && s.ticks <= MeasureLimit
    ensures Step(s, echo).phase == Cooldown <==> echo == Low || s.ticks == MeasureLimit
    ensures echo == Low ==>
              && Step(s, echo).distance == s.ticks / 2
              && Step(s, echo).cooldownTicks == (s.cooldownTicks + 8 * s.ticks) / 2
    ensures echo == High && s.ticks == MeasureLimit ==>
              && Step(s, echo).distance == 0
              && Step(s, echo).cooldownTicks == (s.cooldownTicks + 8 * (MeasureLimit + 1)) / 2
    ensures Step(s, echo).phase == Cooldown ==> Step(s, echo).ticks == 0
    ensures Step(s, echo).phase == MeasuringPing ==> Step(s, echo) == s.(ticks := s.ticks + 1)
  {
  }

  /** The worked examples of the conversion: 41 ticks give 20 cm, and a ping of
      50 ticks after a cooldown of 0 gives a cooldown of 200. */
  lemma MeasurementExamples()
    ensures Step(Sonar(0, MeasuringPing, 41, 0), Low).distance == 20
    ensures Step(Sonar(0, MeasuringPing, 50, 0), Low).cooldownTicks == 200
  {
  }

  /** Cooldown lasts until the counter passes the cooldown length: from counter t it
      takes exactly `cooldownTicks + 1 - t` ticks, and the channel returns to Standby
      with a zero counter, its distance and cooldown untouched. */
  lemma {:induction false} CooldownLasts(s: Sonar, echoes: seq<Level>)
    requires s.phase == Cooldown && s.ticks <= s.cooldownTicks
    requires |echoes| == s.cooldownTicks + 1 - s.ticks
    ensures RunSonar(s, echoes) == s.(phase := Standby, ticks := 0)
    ensures forall j :: 0 <= j < |echoes| ==> RunSonar(s, echoes[..j]).phase == Cooldown
    decreases |echoes|
  {
    var s' := Step(s, echoes[0]);
    assert RunSonar(s, echoes[..0]) == s;
    if s'.phase == Standby {
      assert |echoes| == 1;
    } else {
      CooldownLasts(s', echoes[1..]);
      forall j | 0 <= j < |echoes|
        ensures RunSonar(s, echoes[..j]).phase == Cooldown
      {
        if j > 0 {
          RunSonarPrefix(s, echoes, j);
        }
      }
    }
  }

  /** A channel entering Cooldown with a zero counter is back in Standby with a zero
      counter after exactly `cooldownTicks + 1` ticks. */
  lemma CooldownDuration(s: Sonar, echoes: seq<Level>)
    requires s.phase == Cooldown && s.ticks == 0
    requires |echoes| == s.cooldownTicks + 1
    ensures RunSonar(s, echoes).phase == Standby && RunSonar(s, echoes).ticks == 0
    ensures forall j :: 0 <= j < |echoes| ==> RunSonar(s, echoes[..j]).phase != Standby
  {
    CooldownLasts(s, echoes);
  }

  /** Every value a step computes, and every field, fits a 16-bit unsigned integer,
      so the target's `unsigned int` arithmetic never wraps. */
  lemma CountersFitWord(s: Sonar)
    requires Valid(s)
    ensures s.distance < WordLimit && s.ticks < WordLimit && s.cooldownTicks < WordLimit
    ensures s.ticks + 1 < WordLimit
    ensures (s.ticks + 1) * 8 < WordLimit
    ensures s.cooldownTicks + (s.ticks + 1) * 8 < WordLimit
  {
  }

  /** Most ticks remaining in a Cooldown entered with a zero counter. */
  const CooldownBound: nat := MaxCooldown + 1

  /** Most ticks from entering MeasuringPing (counter 1) back to Standby. */
  const MeasureBound: nat := MeasureLimit + CooldownBound

  /** Most ticks from entering WaitingEcho (counter 0) back to Standby. */
  const EchoWaitBound: nat := EchoWaitLimit + 1 + MeasureBound

  /** Most ticks a promoted channel stays out of Standby. */
  const MaxBusyTicks: nat := 1 + EchoWaitBound

  /** An upper bound on the ticks a channel needs to get back to Standby. */
  function Budget(s: Sonar): (b: nat)
    ensures b == 0 <==> s.phase == Standby
    ensures Valid(s) ==> b <= MaxBusyTicks
  {
    match s.phase
    case Standby => 0
    case Cooldown => if s.ticks <= s.cooldownTicks then s.cooldownTicks + 1 - s.ticks else 1
    case MeasuringPing => (if s.ticks <= MeasureLimit then MeasureLimit + 1 - s.ticks else 1) + CooldownBound
    case WaitingEcho => (if s.ticks <= EchoWaitLimit then EchoWaitLimit + 1 - s.ticks else 1) + MeasureBound
    case BeginTrigger => 1 + EchoWaitBound
  }

  /** Each step of a busy channel spends at least one tick of its budget. */
  lemma StepSpendsBudget(s: Sonar, echo: Level)
    requires Valid(s)
    ensures Budget(Step(s, echo)) <= Budget(s)
    ensures s.phase != Standby ==> Budget(Step(s, echo)) < Budget(s)
  {
  }

  /** Whatever the echo line does, a channel is back in Standby once its budget is spent;
      in particular within `MaxBusyTicks` ticks of any valid record. */
  lemma {:induction false} ReturnsToStandby(s: Sonar, echoes: seq<Level>)
    requires Valid(s)
    requires |echoes| >= Budget(s)
    ensures RunSonar(s, echoes).phase == Standby
    decreases |echoes|
  {
    if s.phase == Standby {
      StandbyIsQuiescent(s, echoes);
    } else {
      StepSpendsBudget(s, echoes[0]);
      ReturnsToStandby(Step(s, echoes[0]), echoes[1..]);
    }
  }
}
