/**
 The velocity ramp of one drive motor (`Dreamster::Motor` in src/dreamster.cpp).
 `SetSpeed` clamps and stores a target; each `Update` moves the current speed one
 step toward it and yields the servo command for the new speed.
 */
module Ramp {

  /** Servo command of a stopped motor. */
  const Center: int := 90

  /** Mounting orientation of a motor: +1 or -1. */
  type Direction = d: int | d == 1 || d == -1 witness 1

  /** The bounds declared with the motor: the largest target magnitude accepted and
      the speed change per update. */
  datatype RampConfig = RampConfig(clampSpeed: nat, step: nat)

  datatype Motor = Motor(currentSpeed: int, targetSpeed: int, dir: Direction)

  /** A motor after an update, with the command written to its servo. */
  datatype Ramped = Ramped(motor: Motor, command: int)

  function Abs(x: int): nat {
    if x < 0 then -x else x
  }

  function Sign(x: int): int {
    if x > 0 then 1 else if x < 0 then -1 else 0
  }

  /** Servo command for the motor's current speed, mirrored for a reversed motor. */
  function Command(m: Motor): int {
    Center + m.dir * m.currentSpeed
  }

  /** The speed the motor is currently driven at (`getSpeed`): the speed the servo
      command encodes. */
  function GetSpeed(m: Motor): (r: int)
    ensures r == m.dir * (Command(m) - Center)
    ensures r == 0 <==> Command(m) == Center
  {
    m.currentSpeed
  }

  /** Stores `speed` as the target, clamped to `[-clampSpeed, clampSpeed]`. */
  function SetSpeed(cfg: RampConfig, m: Motor, speed: int): (r: Motor)
    ensures -(cfg.clampSpeed as int) <= r.targetSpeed <= cfg.clampSpeed
    ensures -(cfg.clampSpeed as int) <= speed <= cfg.clampSpeed ==> r.targetSpeed == speed
    ensures speed < -(cfg.clampSpeed as int) ==> r.targetSpeed == -(cfg.clampSpeed as int)
    ensures speed > cfg.clampSpeed ==> r.targetSpeed == cfg.clampSpeed
    ensures r.currentSpeed == m.currentSpeed && r.dir == m.dir
  {
    var raised := if speed < -(cfg.clampSpeed as int) then -(cfg.clampSpeed as int) else speed;
    var clamped := if raised > cfg.clampSpeed then cfg.clampSpeed else raised;
    m.(targetSpeed := clamped)
  }

  /** The clamped target is the accepted speed nearest to the one requested, and a
      request beyond the bound is stored as the bound with the request's sign. */
  lemma ClampIsNearest(cfg: RampConfig, m: Motor, speed: int, v: int)
    requires -(cfg.clampSpeed as int) <= v <= cfg.clampSpeed
    ensures Abs(SetSpeed(cfg, m, speed).targetSpeed - speed) <= Abs(v - speed)
    ensures Abs(speed) > cfg.clampSpeed ==> SetSpeed(cfg, m, speed).targetSpeed == Sign(speed) * cfg.clampSpeed
  {
  }

  /** Setting the stored target again changes nothing. */
  lemma SetSpeedIdempotent(cfg: RampConfig, m: Motor, speed: int)
    ensures SetSpeed(cfg, SetSpeed(cfg, m, speed), SetSpeed(cfg, m, speed).targetSpeed) == SetSpeed(cfg, m, speed)
  {
  }

  /** One ramp update: one step toward the target (none when they are equal), then the
      servo command for the new speed. */
  function Update(cfg: RampConfig, m: Motor): (r: Ramped)
    ensures r.motor.currentSpeed == m.currentSpeed + Sign(m.targetSpeed - m.currentSpeed) * cfg.step
    ensures r.motor.targetSpeed == m.targetSpeed && r.motor.dir == m.dir
    ensures r.command == Command(r.motor)
  {
    var current :=
      if m.currentSpeed < m.targetSpeed then m.currentSpeed + cfg.step
      else if m.currentSpeed > m.targetSpeed then m.currentSpeed - cfg.step
      else m.currentSpeed;
    var moved := m.(currentSpeed := current);
    Ramped(moved, Center + moved.dir * moved.currentSpeed)
  }

  /** The command determines the speed: the servo output of an update is invertible. */
  lemma CommandDeterminesSpeed(cfg: RampConfig, m: Motor)
    ensures GetSpeed(Update(cfg, m).motor) == m.dir * (Update(cfg, m).command - Center)
    ensures GetSpeed(Update(cfg, m).motor) == 0 <==> Update(cfg, m).command == Center
  {
  }

  /** A motor at its target stays put. */
  lemma SettledIsFixed(cfg: RampConfig, m: Motor)
    requires m.currentSpeed == m.targetSpeed
    ensures Update(cfg, m).motor == m
  {
  }

  /** When the gap to the target is a multiple of the step, an update never overshoots:
      the new speed lies between the old speed and the target, the gap shrinks by one
      step and stays a multiple of it, and a speed and target within the clamp keep the
      speed within the clamp. */
  lemma NoOvershootWhenAligned(cfg: RampConfig, m: Motor)
    requires cfg.step > 0
    requires (m.targetSpeed - m.currentSpeed) % cfg.step == 0
    ensures var c := Update(cfg, m).motor.currentSpeed;
            && (m.currentSpeed <= c <= m.targetSpeed || m.targetSpeed <= c <= m.currentSpeed)
            && Abs(m.targetSpeed - c) <= Abs(m.targetSpeed - m.currentSpeed)
            && (m.currentSpeed != m.targetSpeed ==> Abs(m.targetSpeed - c) == Abs(m.targetSpeed - m.currentSpeed) - cfg.step)
            && (m.targetSpeed - c) % cfg.step == 0
            && (Abs(m.currentSpeed) <= cfg.clampSpeed && Abs(m.targetSpeed) <= cfg.clampSpeed ==> Abs(c) <= cfg.clampSpeed)
  {
    var gap := m.targetSpeed - m.currentSpeed;
    if gap != 0 {
      AlignedGapCoversStep(gap, cfg.step);
      StepKeepsResidue(gap, cfg.step);
    }
  }

  /** A nonzero multiple of the step is at least one step away from zero. */
  lemma AlignedGapCoversStep(gap: int, step: int)
    requires step > 0 && gap != 0 && gap % step == 0
    ensures Abs(gap) >= step
  {
    var k := gap / step;
    assert gap == k * step;
    if k >= 1 {
      MulAtLeast(k, step);
    } else {
      assert k <= -1;
      MulAtLeast(-k, step);
      assert -gap == (-k) * step;
    }
  }

  lemma MulAtLeast(a: int, b: int)
    requires a >= 1 && b > 0
    ensures a * b >= b
  {
    assert a * b == (a - 1) * b + b;
  }

  /** Euclidean division is unique: a quotient and a remainder in range are the ones. */
  lemma DivModUnique(x: int, step: int, q: int, r: int)
    requires step > 0 && 0 <= r < step && x == q * step + r
    ensures x % step == r
  {
    var q' := x / step;
    var r' := x % step;
    assert x == q' * step + r';
    assert (q - q') * step == r' - r;
    if q > q' {
      MulAtLeast(q - q', step);
    } else if q < q' {
      MulAtLeast(q' - q, step);
    }
  }

  /** Moving by one step keeps the remainder of the gap. */
  lemma StepKeepsResidue(gap: int, step: int)
    requires step > 0
    ensures (gap - step) % step == gap % step
    ensures (gap + step) % step == gap % step
  {
    var k := gap / step;
    var r := gap % step;
    assert gap == k * step + r && 0 <= r < step;
    DivModUnique(gap - step, step, k - 1, r);
    DivModUnique(gap + step, step, k + 1, r);
  }

  /** A motor after `n` ramp updates. */
  function UpdateN(cfg: RampConfig, m: Motor, n: nat): Motor
    decreases n
  {
    if n == 0 then m else UpdateN(cfg, Update(cfg, m).motor, n - 1)
  }

  /** A gap of exactly n steps is closed by n updates, and the target is then held. */
  lemma {:induction false} RampReachesTarget(cfg: RampConfig, m: Motor, n: nat, extra: nat)
    requires cfg.step > 0
    requires Abs(m.targetSpeed - m.currentSpeed) == n * cfg.step
    ensures UpdateN(cfg, m, n).currentSpeed == m.targetSpeed
    ensures UpdateN(cfg, m, n + extra).currentSpeed == m.targetSpeed
    decreases n + extra
  {
    if n > 0 {
      var m' := Update(cfg, m).motor;
      assert Abs(m'.targetSpeed - m'.currentSpeed) == (n - 1) * cfg.step;
      RampReachesTarget(cfg, m', n - 1, extra);
    } else if extra > 0 {
      SettledIsFixed(cfg, m);
      RampReachesTarget(cfg, m, 0, extra - 1);
    }
  }

  /** When the gap is not a multiple of the step the ramp never settles: the speed
      jumps over the target and back forever. */
  lemma {:induction false} MisalignedNeverSettles(cfg: RampConfig, m: Motor, n: nat)
    requires cfg.step > 0
    requires (m.targetSpeed - m.currentSpeed) % cfg.step != 0
    ensures UpdateN(cfg, m, n).currentSpeed != m.targetSpeed
    ensures (m.targetSpeed - UpdateN(cfg, m, n).currentSpeed) % cfg.step == (m.targetSpeed - m.currentSpeed) % cfg.step
    decreases n
  {
    if n > 0 {
      var m' := Update(cfg, m).motor;
      var gap := m.targetSpeed - m.currentSpeed;
      StepKeepsResidue(gap, cfg.step);
      assert (m'.targetSpeed - m'.currentSpeed) % cfg.step == gap % cfg.step;
      MisalignedNeverSettles(cfg, m', n - 1);
    }
  }

  /** Overshoots: with a step of 2, a stopped motor aiming at 1 jumps to 2, then back
      to 0; with a clamp of 100 and a step of 3, a motor at 99 aiming at 100 reaches 102,
      past the clamp. */
  lemma OvershootExample()
    ensures Update(RampConfig(100, 2), Motor(0, 1, 1)).motor.currentSpeed == 2
    ensures UpdateN(RampConfig(100, 2), Motor(0, 1, 1), 2).currentSpeed == 0
    ensures Update(RampConfig(100, 3), Motor(99, 100, 1)).motor.currentSpeed == 102
  {
  }

  /** Whatever the alignment, a target within the clamp keeps the speed less than one
      step beyond the clamp: the overshoot past `clampSpeed` is at most `step - 1`. */
  lemma {:induction false} RampStaysNearClamp(cfg: RampConfig, m: Motor, n: nat)
    requires cfg.step > 0
    requires Abs(m.targetSpeed) <= cfg.clampSpeed
    requires Abs(m.currentSpeed) <= cfg.clampSpeed + cfg.step - 1
    ensures Abs(UpdateN(cfg, m, n).currentSpeed) <= cfg.clampSpeed + cfg.step - 1
    decreases n
  {
    if n > 0 {
      RampStaysNearClamp(cfg, Update(cfg, m).motor, n - 1);
    }
  }
}
