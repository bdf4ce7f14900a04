# Dreamster ranging scheduler and motor ramp, modelled in Dafny

This project models the control core of the Dreamster robot library
(`src/dreamster.cpp`):

- **Ranging channels** (`Ranging`, `ranging.dfy`). Each of the three ultrasonic
  sonars has a record holding `distance`, `phase`, `ticks` and `cooldownTicks`.
  Its state machine runs BeginTrigger → WaitingEcho → MeasuringPing → Cooldown →
  Standby. `Step` is one tick of one channel. The level of the channel's echo line
  in that tick is an input of `Step`, so the line is read at most once per tick.
  The trigger pulse is the fact that a channel was in BeginTrigger when the tick
  began.
- **Round-robin sequencer** (`Scheduler`, `scheduler.dfy`). `Tick` is one call of
  the timer callback `timer_callback`. Every channel steps once. If all channels
  then stand by, the channel at the round-robin index is promoted to BeginTrigger
  and the index advances with wrap-around. `Tick` reports the new state, the
  channels whose trigger was pulsed, and the channel promoted, if any. `Run` and
  `Promotions` fold `Tick` over a sequence of per-tick echo samples.
- **Distance accessors** (`Facade`, `facade.dfy`). These are `scan`, `scan_a`,
  `scan_b` and `scan_c`. Each copies a stored `unsigned int` distance into an `int`.
- **Velocity ramp** (`Ramp`, `ramp.dfy`): `Motor::setSpeed`, `Motor::getSpeed` and
  `Motor::update`. The bounds `clampSpeed` and `step` are declared in `dreamster.h`,
  which is not part of this model. They are parameters here: `clampSpeed >= 0`, and
  `step > 0` wherever a property needs it. A motor's `dir` is ±1.

The central invariant is `Scheduler.Inv`:

- every channel record is `Ranging.Valid`;
- only the channel promoted last can be outside Standby.

`Ranging.Valid` includes the fact that Standby and BeginTrigger hold `ticks == 0`.
WaitingEcho does not reset `ticks` when it is entered, so its 17-tick bound depends
on this fact.

The timeout thresholds are kept as the literal tick counts of the code: 16 ticks
waiting for an echo and 800 ticks measuring. The microsecond figures in the code's
comments are not modelled. Between ticks a MeasuringPing counter is at most 800. It
reaches 801 only inside the tick whose timeout then fires and clears it. Every stored
distance is therefore at most 400.

Record fields are unbounded naturals. On the AVR target, `unsigned int` is 16 bits
wide. `Ranging.CountersFitWord` shows that every field, and every intermediate value
a step computes, stays below 2^16 in a valid record. So the 16-bit wrap-around never
happens in a reachable state.

One might expect the ramp never to overshoot its target. The code does not
guarantee this: when the gap to the target is not a multiple of `step`, `update`
jumps over the target and back forever. Such a jump can also carry the speed past
`clampSpeed`, by at most `step − 1`. The model follows the code:

- `Ramp.NoOvershootWhenAligned` proves there is no overshoot when the gap is a
  multiple of the step;
- `Ramp.MisalignedNeverSettles` proves the ramp never settles otherwise;
- `Ramp.RampStaysNearClamp` bounds the overshoot past the clamp by `step − 1`;
- `Ramp.OvershootExample` gives concrete cases.

This is not listed as a defect, because `step` is not visible here. With `step == 1`,
for example, every gap is aligned.

## Model

| member | source | states |
|---|---|---|
| Ranging.SmoothCooldown | src/dreamster.cpp:66 | The new cooldown lies between the old cooldown and eight times the ping length, so it is a smoothing toward 8× the last ping. |
| Ranging.Step | src/dreamster.cpp:36-89 | One channel tick keeps a record valid. Phases only move to their successor in the cycle. Standby is left unchanged. Entering Standby always resets `ticks` to 0. Distance and cooldown change only when MeasuringPing ends in Cooldown. |
| Ranging.EchoReadOnlyWhileListening | src/dreamster.cpp:36-88 | The echo level affects a step only in WaitingEcho and MeasuringPing. |
| Ranging.StandbyIsQuiescent | src/dreamster.cpp:86-88 | A Standby channel stays exactly as it is over any number of ticks and any echo input. |
| Ranging.EchoWaitEnds | src/dreamster.cpp:44-57 | From WaitingEcho with counter t ≤ 16, the channel reaches MeasuringPing with counter 1 and other fields unchanged within 17 − t ticks. It stays in WaitingEcho in every tick before that, whatever the echo does. |
| Ranging.WaitingEchoLiveness | src/dreamster.cpp:44-57 | A channel entering WaitingEcho with counter 0 reaches MeasuringPing with counter 1 within 17 ticks under any echo input. |
| Ranging.MeasurementOutcome | src/dreamster.cpp:59-76 | MeasuringPing ends in Cooldown exactly when the echo is low or the count reaches the timeout. A low echo stores `ticks/2` and cooldown `(cooldown + 8·ticks)/2`. A timeout stores 0 and smooths the cooldown with 801 ticks. Both clear the counter. Otherwise the count grows by one. |
| Ranging.MeasurementExamples | src/dreamster.cpp:65-66 | 41 ticks give 20 cm. Old cooldown 0 with a 50-tick ping gives cooldown 200. |
| Ranging.CooldownLasts | src/dreamster.cpp:78-85 | From Cooldown with counter t ≤ cooldown, the channel is in Standby with counter 0 and other fields untouched after exactly `cooldown + 1 − t` ticks. It is in Cooldown before that. |
| Ranging.CooldownDuration | src/dreamster.cpp:78-85 | A channel entering Cooldown with counter 0 returns to Standby with counter 0 after exactly `cooldown + 1` ticks, and not earlier. |
| Ranging.CountersFitWord | src/dreamster.cpp:11-18 | In a valid record, all fields and all intermediate values a step computes fit a 16-bit unsigned integer. |
| Ranging.Budget | src/dreamster.cpp:35-89 | The remaining-ticks bound is 0 exactly in Standby, and at most 7227 for a valid record. |
| Ranging.StepSpendsBudget | src/dreamster.cpp:35-89 | A step never raises the bound, and a busy channel's step strictly lowers it. |
| Ranging.ReturnsToStandby | src/dreamster.cpp:35-89 | A valid channel is back in Standby once its budget of ticks has passed, under any echo input. |
| Scheduler.Tick | src/dreamster.cpp:31-105 | The index stays in 0..2. A promotion happens exactly when every channel stands by after its step. It promotes the indexed channel to BeginTrigger and advances the index by one modulo 3. Without a promotion the index is kept. |
| Scheduler.Run | src/dreamster.cpp:31-105 | Any number of ticks keeps three channels and an index in 0..2. |
| Scheduler.UnpromotedChannelSteps | src/dreamster.cpp:35-103 | In a tick, every channel other than the one promoted ends in the state its own step gives. This connects the channel lemmas to the sequencer. |
| Scheduler.ChannelsEnterPhasesCleared | src/dreamster.cpp:44-85 | Under the invariant, a channel that enters WaitingEcho or Cooldown in a tick does so with counter 0. So the channel-level timing lemmas apply to every channel inside a run. |
| Scheduler.InitialInv | src/dreamster.cpp:11-26 | The start-up state satisfies the invariant. |
| Scheduler.TickPreservesInv | src/dreamster.cpp:31-103 | Each tick keeps every record valid, and keeps the only busy channel equal to the last promoted one. |
| Scheduler.RunPreservesInv | src/dreamster.cpp:31-103 | Any run from a state satisfying the invariant keeps it. |
| Scheduler.MutualExclusion | src/dreamster.cpp:31-103 | From start-up, after any ticks under any echo input, at most one channel is outside Standby. Every record is valid, and every stored distance is at most 400. |
| Scheduler.PromotionStartsOneChannel | src/dreamster.cpp:90-103 | After a promoting tick, exactly the indexed channel is in BeginTrigger and the others stand by. A tick without a promotion ends with some channel busy. |
| Scheduler.OnePulsePerTick | src/dreamster.cpp:37-43 | A tick pulses at most one trigger, the one of the channel promoted last. |
| Scheduler.PulseFollowsPromotion | src/dreamster.cpp:37-103 | The tick after a promotion pulses the promoted channel's trigger and no other. |
| Scheduler.RoundRobinOrder | src/dreamster.cpp:99-103 | The k-th promotion of a run is channel `(next + k) mod 3`. The final index is the start index advanced by the number of promotions, modulo 3. |
| Scheduler.StartupOrder | src/dreamster.cpp:99-103 | From start-up, promotions go A, B, C, A, …: the k-th one is channel k mod 3. |
| Scheduler.FirstTick | src/dreamster.cpp:99-103 | The first tick after start-up promotes A, leaves B and C in Standby and sets the index to 1. |
| Scheduler.TotalBudget | src/dreamster.cpp:31-103 | The busy channels' bound is 0 exactly when all stand by, and at most 7227 under the invariant. |
| Scheduler.IdleTickSpendsBudget | src/dreamster.cpp:90-103 | A tick that promotes nobody strictly lowers the busy channels' bound. |
| Scheduler.PromotionWithinBudget | src/dreamster.cpp:31-103 | A promotion happens within a number of ticks equal to the busy channels' bound (at least one tick). |
| Scheduler.PromotionWithin | src/dreamster.cpp:31-103 | Bounded waiting: from any state the invariant admits, some channel is promoted within 7227 ticks under any echo input. |
| Scheduler.ManyPromotions | src/dreamster.cpp:31-103 | A run of n·7227 ticks promotes at least n times. |
| Scheduler.EveryChannelServed | src/dreamster.cpp:99-103 | Fairness: every channel is promoted within 3·7227 ticks. |
| Facade.ToSigned16 | src/dreamster.cpp:118-131 | The 16-bit unsigned-to-int conversion gives a value in [−2^15, 2^15) congruent to its input mod 2^16. It is the identity below 2^15. |
| Facade.ScanChannel | src/dreamster.cpp:118-131 | Under the invariant, a channel read returns its stored distance unchanged, and the value is in 0..400. |
| Facade.ScanAll | src/dreamster.cpp:111-116 | `scan` returns the three channel reads in order A, B, C, each in 0..400 under the invariant. |
| Facade.ScannedDistancesBounded | src/dreamster.cpp:111-131 | From start-up, under any echo input, every read distance is the stored one and lies in 0..400. |
| Ramp.SetSpeed | src/dreamster.cpp:220-226 | The stored target lies in [−clampSpeed, clampSpeed]. It equals the request when the request is in range and the nearer bound otherwise. The current speed and direction are unchanged. |
| Ramp.ClampIsNearest | src/dreamster.cpp:220-226 | The stored target is the in-range speed nearest the request. A request beyond the bound is stored as the bound with the request's sign. |
| Ramp.SetSpeedIdempotent | src/dreamster.cpp:220-226 | Setting the stored target again changes nothing. |
| Ramp.Update | src/dreamster.cpp:233-242 | The current speed moves by `step` in the direction of the target, and not at all when they are equal. Target and direction are kept. The emitted command is `90 + dir·speed`. |
| Ramp.GetSpeed | src/dreamster.cpp:228-231 | The speed returned is `dir·(command − 90)` for the command the motor emits, and it is 0 exactly when that command is 90. |
| Ramp.CommandDeterminesSpeed | src/dreamster.cpp:228-241 | The speed read by `getSpeed` after an update equals `dir·(command − 90)`. The command is 90 exactly when the motor stops. |
| Ramp.SettledIsFixed | src/dreamster.cpp:233-242 | A motor at its target is left unchanged by an update. |
| Ramp.NoOvershootWhenAligned | src/dreamster.cpp:233-240 | If the gap to the target is a multiple of `step`, the new speed lies between the old speed and the target. The gap shrinks by exactly one step and stays a multiple of it. A speed and target within the clamp keep the speed within the clamp. |
| Ramp.RampReachesTarget | src/dreamster.cpp:233-240 | A gap of n steps is closed by n updates, and the target is held by any later updates. |
| Ramp.MisalignedNeverSettles | src/dreamster.cpp:233-240 | If the gap is not a multiple of `step`, no number of updates reaches the target, and the gap keeps its remainder. |
| Ramp.OvershootExample | src/dreamster.cpp:233-240 | With step 2, a stopped motor aiming at 1 jumps to 2 and then back to 0. With clamp 100 and step 3, a motor at 99 aiming at 100 jumps to 102, past the clamp. |
| Ramp.RampStaysNearClamp | src/dreamster.cpp:233-240 | With a target within the clamp, a speed within `clampSpeed + step − 1` stays within that bound over any number of updates, aligned or not. |

## Left out

- Pin I/O is not modelled: `digitalWrite`, `delayMicroseconds`, `digitalRead`, `pinMode`, `analogRead` and `analogWrite`. Echo levels are inputs of each tick, and the trigger pulse is the `fired` output of `Scheduler.Tick`.
- `Dreamster::read_ir` and `Dreamster::show` are left out. They are direct analog pass-throughs with no state.
- The Timer3 register setup, the ISR wiring and `Serial.begin` in `Dreamster::setup` are left out. The physical tick period is not modelled either. One ISR call is one `Scheduler.Tick`.
- The pin bindings in `Dreamster::setup` are left out. A channel's echo level is indexed by its position instead.
- The debug globals `debug_state` and `debug_ticks` are left out. They are written but never read by the core.
- `servo.attach` and `servo.write` are left out because they belong to a foreign library. Only the integer command value is modelled.
- The `Motor` constructor and the heap allocation of the two motors in `Dreamster::setup` are left out.
- `Dreamster::move` and `Dreamster::update` are left out. Each is one `Ramp.SetSpeed` or `Ramp.Update` call per motor.
- `Dreamster::sleep` is left out. It is a busy loop over the wall clock (`millis()`). Repeated updates are modelled by `Ramp.UpdateN`.
- Concurrency between the interrupt and the main loop is left out. Ticks and main-loop calls are separate, sequential operations, and a distance read sees the state between two ticks.
- `dreamster.h` is not part of this model. It declares `clampSpeed`, `step` and the field types, so `clampSpeed` and `step` are parameters.
- Ranging.Step: counters are unbounded naturals, not 16-bit words. A wrap-around from a record that is not valid is not modelled. `Ranging.CountersFitWord` shows that valid records never reach one.
- Ramp.Update: `int` overflow of the speed or of `90 + dir·speed` is not modelled, because `clampSpeed` and `step` are not known.
