/**
 * The actuators (devices.py): the stepper-driven pill wheel and the
 * peristaltic pump, both advanced one control-loop tick at a time.
 *
 * The motor kit is an output log: the wheel records every `onestep` and
 * `release` it issues, the pump every value written to `device.throttle`.
 * The clock is the parameter `now` (seconds); Python's floats are reals.
 */
module Devices {
  import opened Wrappers

  /** `stepper.FORWARD` and `stepper.BACKWARD`. */
  datatype Direction = Forward | Backward

  /** What a device operation raises instead of completing. */
  datatype DeviceError = InvalidMotorNumber | ZeroDivision

  /** The outputs of one motor kit a device can be bound to. */
  datatype KitOutput = Stepper1 | Stepper2 | Motor1 | Motor2 | Motor3 | Motor4

  /** A command sent to a stepper output. */
  datatype StepperCommand = OneStep(direction: Direction) | Release

  /** The stepper a pill wheel binds to: motor numbers 1 and 2 only. */
  function SelectStepper(motorNumber: int): (r: Result<KitOutput, DeviceError>)
    ensures r.Ok? <==> motorNumber == 1 || motorNumber == 2
    ensures r.Ok? ==> (r.value == Stepper1 <==> motorNumber == 1) && (r.value == Stepper2 <==> motorNumber == 2)
    ensures r.Err? ==> r.error == InvalidMotorNumber
  {
    if motorNumber == 1 then Ok(Stepper1)
    else if motorNumber == 2 then Ok(Stepper2)
    else Err(InvalidMotorNumber)
  }

  /** The DC motor a pump binds to: motor numbers 1 to 4 only. */
  function SelectDcMotor(motorNumber: int): (r: Result<KitOutput, DeviceError>)
    ensures r.Ok? <==> 1 <= motorNumber <= 4
    ensures r.Ok? ==> r.value in {Motor1, Motor2, Motor3, Motor4}
    ensures r.Ok? ==> (r.value == Motor1 <==> motorNumber == 1) && (r.value == Motor2 <==> motorNumber == 2)
    ensures r.Ok? ==> (r.value == Motor3 <==> motorNumber == 3) && (r.value == Motor4 <==> motorNumber == 4)
    ensures r.Err? ==> r.error == InvalidMotorNumber
  {
    if motorNumber == 1 then Ok(Motor1)
    else if motorNumber == 2 then Ok(Motor2)
    else if motorNumber == 3 then Ok(Motor3)
    else if motorNumber == 4 then Ok(Motor4)
    else Err(InvalidMotorNumber)
  }

  function Abs(x: real): real
  {
    if x < 0.0 then -x else x
  }

  /** `n` copies of `d`. */
  function Repeat(d: Direction, n: nat): (r: seq<Direction>)
    ensures |r| == n && forall i :: 0 <= i < n ==> r[i] == d
  {
    if n == 0 then [] else [d] + Repeat(d, n - 1)
  }

  // ---------------------------------------------------------------- pill wheel

  /** The stepping bookkeeping of a pill wheel. */
  datatype Wheel = Wheel(direction: Direction, stepCount: int, countTotal: real, moving: bool)

  /** A freshly constructed wheel: forward, counters zero, not moving. */
  const IdleWheel := Wheel(Forward, 0, 0.0, false)

  /** The wheel invariant: counters are not negative, and a wheel at rest has both counters reset. */
  predicate Consistent(w: Wheel)
  {
    w.stepCount >= 0 && w.countTotal >= 0.0 &&
    (!w.moving ==> w.stepCount == 0 && w.countTotal == 0.0)
  }

  /** True when `x` is a whole number. */
  predicate Whole(x: real)
  {
    x.Floor as real == x
  }

  /**
   * `move(revolutions)`: ignored while moving; otherwise the step total is
   * revolutions divided by steps per revolution (a zero divisor raises), the
   * direction is backward exactly when that total is below 1, and its
   * absolute value becomes the count to reach. The step counter is left as
   * it is.
   */
  function Arm(w: Wheel, revolutions: real, stepsPerRev: real): (r: Result<Wheel, DeviceError>)
    ensures w.moving ==> r == Ok(w)
    ensures !w.moving ==> (r.Err? <==> stepsPerRev == 0.0)
    ensures r.Err? ==> r.error == ZeroDivision
    ensures !w.moving && r.Ok? ==>
      && r.value.moving
      && r.value.stepCount == w.stepCount
      && r.value.countTotal >= 0.0
      && r.value.countTotal * Abs(stepsPerRev) == Abs(revolutions)
      && (r.value.direction == Backward <==> revolutions / stepsPerRev < 1.0)
    ensures Consistent(w) && r.Ok? ==> Consistent(r.value)
  {
    if w.moving then Ok(w)
    else if stepsPerRev == 0.0 then Err(ZeroDivision)
    else
      var stepTotal := revolutions / stepsPerRev;
      var direction := if stepTotal < 1.0 then Backward else Forward;
      Ok(w.(direction := direction, countTotal := Abs(stepTotal), moving := true))
  }

  /**
   * One `loop` tick: while moving and below the count, step once and count
   * it; on reaching the count exactly, step once more and come to rest with
   * the counters reset; otherwise do nothing. Returns the step issued, if any.
   */
  function Tick(w: Wheel): (r: (Wheel, Option<Direction>))
    ensures r.1.Some? <==> w.moving && w.stepCount as real <= w.countTotal
    ensures r.1.Some? ==> r.1.value == w.direction
    ensures r.0.direction == w.direction
    ensures !w.moving ==> r == (w, None)
    ensures r.0.moving ==> r.0.stepCount >= w.stepCount && r.0.countTotal == w.countTotal
    ensures w.moving && !r.0.moving ==> r.0.stepCount == 0 && r.0.countTotal == 0.0
    ensures w.moving && (w.stepCount as real) < w.countTotal ==> r.0 == w.(stepCount := w.stepCount + 1)
    ensures w.moving && (w.stepCount as real) == w.countTotal ==> r.0 == Wheel(w.direction, 0, 0.0, false)
    ensures w.moving && (w.stepCount as real) > w.countTotal ==> r == (w, None)
    ensures Consistent(w) ==> Consistent(r.0)
  {
    if w.moving && (w.stepCount as real) < w.countTotal then
      (w.(stepCount := w.stepCount + 1), Some(w.direction))
    else if w.moving && (w.stepCount as real) == w.countTotal then
      (w.(stepCount := 0, countTotal := 0.0, moving := false), Some(w.direction))
    else
      (w, None)
  }

  /** The steps in an optional step. */
  function StepsOf(s: Option<Direction>): seq<Direction>
  {
    match s
    case Some(d) => [d]
    case None => []
  }

  /** `k` ticks from `w`: the wheel afterwards and the steps issued, in order. */
  function Ticks(w: Wheel, k: nat): (r: (Wheel, seq<Direction>))
    ensures |r.1| <= k
    ensures forall i :: 0 <= i < |r.1| ==> r.1[i] == w.direction
    ensures r.0.direction == w.direction
    ensures !w.moving ==> r == (w, [])
    decreases k
  {
    if k == 0 then (w, [])
    else
      var first := Tick(w);
      var rest := Ticks(first.0, k - 1);
      (rest.0, StepsOf(first.1) + rest.1)
  }

  /** Below a whole count `n`, each tick issues one step and the wheel keeps moving. */
  lemma {:induction false} TicksBelowCount(w: Wheel, n: nat, k: nat)
    requires w.moving && w.countTotal == n as real && 0 <= w.stepCount && w.stepCount + k <= n
    ensures Ticks(w, k) == (w.(stepCount := w.stepCount + k), Repeat(w.direction, k))
    decreases k
  {
    if k > 0 {
      var w1 := w.(stepCount := w.stepCount + 1);
      assert Tick(w) == (w1, Some(w.direction));
      TicksBelowCount(w1, n, k - 1);
      assert w1.(stepCount := w1.stepCount + (k - 1)) == w.(stepCount := w.stepCount + k);
    }
  }

  /**
   * A wheel armed with a whole count `n` (counter at 0) issues exactly n+1
   * steps, all in its direction: it is still moving after n ticks, and after
   * tick n+1 it is at rest with its counters reset.
   */
  lemma WholeCountTakesOneExtraStep(w: Wheel, n: nat)
    requires w.moving && w.stepCount == 0 && w.countTotal == n as real
    ensures Ticks(w, n).0.moving
    ensures Ticks(w, n + 1) == (Wheel(w.direction, 0, 0.0, false), Repeat(w.direction, n + 1))
  {
    TicksBelowCount(w, n, n);
    var wn := w.(stepCount := n);
    assert Tick(wn) == (Wheel(w.direction, 0, 0.0, false), Some(w.direction));
    assert Ticks(wn, 1) == (Ticks(Tick(wn).0, 0).0, StepsOf(Tick(wn).1) + Ticks(Tick(wn).0, 0).1);
    assert StepsOf(Tick(wn).1) + Ticks(Tick(wn).0, 0).1 == [w.direction];
    assert Ticks(wn, 1) == (Wheel(w.direction, 0, 0.0, false), [w.direction]);
    TicksSplit(w, n, 1);
    assert Repeat(w.direction, n) + [w.direction] == Repeat(w.direction, n + 1);
  }

  /** Ticking `a` times and then `b` times is ticking `a + b` times. */
  lemma {:induction false} TicksSplit(w: Wheel, a: nat, b: nat)
    ensures Ticks(w, a + b) == (Ticks(Ticks(w, a).0, b).0, Ticks(w, a).1 + Ticks(Ticks(w, a).0, b).1)
    decreases a
  {
    if a > 0 {
      var w1 := Tick(w).0;
      var s := StepsOf(Tick(w).1);
      TicksSplit(w1, a - 1, b);
      var wa := Ticks(w1, a - 1).0;
      assert Ticks(w, a) == (Ticks(w1, a - 1).0, s + Ticks(w1, a - 1).1);
      assert Ticks(w, a + b) == (Ticks(w1, (a - 1) + b).0, s + Ticks(w1, (a - 1) + b).1);
      assert s + (Ticks(w1, a - 1).1 + Ticks(wa, b).1) == (s + Ticks(w1, a - 1).1) + Ticks(wa, b).1;
      assert Ticks(w, a + b).1 == Ticks(w, a).1 + Ticks(Ticks(w, a).0, b).1;
    } else {
      assert Ticks(w, a).1 + Ticks(w, b).1 == Ticks(w, b).1;
    }
  }

  /** A wheel whose counter has passed a count it never hit does nothing on a tick. */
  lemma StalledTickIsIdle(w: Wheel)
    requires w.moving && w.stepCount as real > w.countTotal
    ensures Tick(w) == (w, None)
  {
  }

  /**
   * With a count that is not a whole number the counter steps over it
   * without ever equalling it: the wheel never comes to rest, however many
   * ticks follow, and issues no more steps than whole numbers lie below the
   * count plus one.
   */
  lemma {:induction false} FractionalCountNeverCompletes(w: Wheel, k: nat)
    requires w.moving && !Whole(w.countTotal) && (w.stepCount as real) < w.countTotal + 1.0
    ensures Ticks(w, k).0.moving
    ensures (Ticks(w, k).0.stepCount as real) < w.countTotal + 1.0
    ensures Ticks(w, k).0.countTotal == w.countTotal
    decreases k
  {
    if k > 0 {
      assert (w.stepCount as real) != w.countTotal;
      FractionalCountNeverCompletes(Tick(w).0, k - 1);
    }
  }

  /**
   * `move(1)` with the default 200 steps per revolution: the division gives
   * a count of 1/200, so the wheel turns backward, issues a single step, and
   * stays moving for good, so that every later `move` is ignored.
   */
  lemma OneRevolutionStalls(k: nat)
    ensures Arm(IdleWheel, 1.0, 200.0) == Ok(Wheel(Backward, 0, 1.0 / 200.0, true))
    ensures Ticks(Wheel(Backward, 0, 1.0 / 200.0, true), k + 1).0 == Wheel(Backward, 1, 1.0 / 200.0, true)
    ensures Ticks(Wheel(Backward, 0, 1.0 / 200.0, true), k + 1).1 == [Backward]
  {
    var w := Wheel(Backward, 0, 1.0 / 200.0, true);
    var w1 := Wheel(Backward, 1, 1.0 / 200.0, true);
    assert Tick(w) == (w1, Some(Backward));
    StalledTicksAreIdle(w1, k);
  }

  /** Any number of ticks leaves a stalled wheel as it is and issues nothing. */
  lemma {:induction false} StalledTicksAreIdle(w: Wheel, k: nat)
    requires w.moving && w.stepCount as real > w.countTotal
    ensures Ticks(w, k) == (w, [])
    decreases k
  {
    if k > 0 {
      StalledTickIsIdle(w);
      StalledTicksAreIdle(w, k - 1);
      assert Ticks(w, k) == (Ticks(Tick(w).0, k - 1).0, StepsOf(Tick(w).1) + Ticks(Tick(w).0, k - 1).1);
      assert StepsOf(Tick(w).1) + Ticks(Tick(w).0, k - 1).1 == [];
    }
  }

  /** The pill wheel: a stepper advanced one micro-step per `loop` call. */
  class PillWheel {
    const device: KitOutput
    const motorNumber: int
    const stepsPerRev: real
    var direction: Direction
    var stepCount: int
    var countTotal: real
    var moving: bool
    /** Every command issued to the stepper, oldest first. */
    var log: seq<StepperCommand>

    function State(): Wheel
      reads this
    {
      Wheel(direction, stepCount, countTotal, moving)
    }

    ghost predicate Valid()
      reads this
    {
      Consistent(State())
    }

    constructor (device: KitOutput, motorNumber: int, stepsPerRev: real)
      requires SelectStepper(motorNumber) == Ok(device)
      ensures Valid() && State() == IdleWheel && log == []
      ensures this.device == device && this.motorNumber == motorNumber && this.stepsPerRev == stepsPerRev
    {
      this.device := device;
      this.motorNumber := motorNumber;
      this.stepsPerRev := stepsPerRev;
      direction := Forward;
      stepCount := 0;
      countTotal := 0.0;
      moving := false;
      log := [];
    }

    /** `PillWheel(control, motor_number, steps_per_rev)`: raises for a motor number other than 1 or 2. */
    static method Create(motorNumber: int := 1, stepsPerRev: real := 200.0) returns (r: Result<PillWheel, DeviceError>)
      ensures r.Err? <==> SelectStepper(motorNumber).Err?
      ensures r.Err? ==> r.error == InvalidMotorNumber
      ensures r.Ok? ==> fresh(r.value) && r.value.Valid() && r.value.State() == IdleWheel && r.value.log == []
      ensures r.Ok? ==> Ok(r.value.device) == SelectStepper(motorNumber) && r.value.stepsPerRev == stepsPerRev
    {
      match SelectStepper(motorNumber)
      case Ok(device) =>
        var w := new PillWheel(device, motorNumber, stepsPerRev);
        r := Ok(w);
      case Err(e) =>
        r := Err(e);
    }

    method IsMoving() returns (m: bool)
      ensures m == moving
    {
      m := moving;
    }

    /** `setup`: releases the motor's power and turns the direction forward. */
    method Setup()
      requires Valid()
      modifies this
      ensures Valid()
      ensures State() == old(State()).(direction := Forward)
      ensures log == old(log) + [Release]
    {
      log := log + [Release];
      direction := Forward;
    }

    /** `move(revolutions)`, as specified by `Arm`; a zero `steps_per_rev` raises and changes nothing. */
    method Move(revolutions: real) returns (r: Outcome<DeviceError>)
      requires Valid()
      modifies this
      ensures Valid() && log == old(log)
      ensures r.Fail? <==> Arm(old(State()), revolutions, stepsPerRev).Err?
      ensures r.Pass? ==> State() == Arm(old(State()), revolutions, stepsPerRev).value
      ensures r.Fail? ==> State() == old(State()) && r.error == ZeroDivision
    {
      r := Pass;
      var m := IsMoving();
      if !m {
        if stepsPerRev == 0.0 {
          return Fail(ZeroDivision);
        }
        var stepTotal := revolutions / stepsPerRev;
        if stepTotal < 1.0 {
          direction := Backward;
        } else {
          direction := Forward;
        }
        countTotal := Abs(stepTotal);
        moving := true;
      }
    }

    /** `__move_complete__`: comes to rest with both counters reset. */
    method MoveComplete()
      modifies this
      ensures State() == old(State()).(stepCount := 0, countTotal := 0.0, moving := false)
      ensures log == old(log)
    {
      stepCount := 0;
      countTotal := 0.0;
      moving := false;
    }

    /** `loop`: one tick, as specified by `Tick`, with the step it issues appended to the log. */
    method Loop()
      requires Valid()
      modifies this
      ensures Valid()
      ensures State() == Tick(old(State())).0
      ensures log == old(log) + if Tick(old(State())).1.Some? then [OneStep(direction)] else []
    {
      if moving && (stepCount as real) < countTotal {
        log := log + [OneStep(direction)];
        stepCount := stepCount + 1;
      } else if moving && (stepCount as real) == countTotal {
        log := log + [OneStep(direction)];
        MoveComplete();
      }
    }
  }

  // ---------------------------------------------------------------- pump

  /** Liquid always delivered at the dribble rate, in mL (`__liquid_preact__`). */
  const LiquidPreact: real := 1.0

  /** The three durations `deliver_liquid` computes, in milliseconds. */
  datatype DeliveryTimes = DeliveryTimes(fullRate: real, dribble: real, total: real)

  /**
   * The durations for `mL` millilitres, as written: the per-mL time is
   * DIVIDED by the full-rate volume and by the pre-activation volume (then
   * scaled by 1000), so a full-rate volume of zero (`mL == 1.0`) raises.
   */
  function ComputeTimes(mL: real, fullRateSecPerMl: real, dribbleSecPerMl: real): (r: Result<DeliveryTimes, DeviceError>)
    ensures r.Err? <==> mL == LiquidPreact
    ensures r.Err? ==> r.error == ZeroDivision
    ensures r.Ok? ==> r.value.fullRate * (mL - LiquidPreact) == fullRateSecPerMl * 1000.0
    ensures r.Ok? ==> r.value.dribble * LiquidPreact == dribbleSecPerMl * 1000.0
    ensures r.Ok? ==> r.value.total == r.value.fullRate + r.value.dribble
  {
    var fullRateLiquid := mL - LiquidPreact;
    if fullRateLiquid == 0.0 then Err(ZeroDivision)
    else
      var fullRate := (fullRateSecPerMl / fullRateLiquid) * 1000.0;
      var dribble := (dribbleSecPerMl / LiquidPreact) * 1000.0;
      Ok(DeliveryTimes(fullRate, dribble, fullRate + dribble))
  }

  /** What a running pump is doing. */
  datatype PumpPhase = FullRate | Dribble | Off

  /** The pump's phase at an elapsed time. */
  function Phase(elapsed: real, t: DeliveryTimes): (p: PumpPhase)
    ensures p == FullRate <==> elapsed < t.fullRate
    ensures p == Dribble <==> t.fullRate <= elapsed < t.total
    ensures p == Off <==> elapsed >= t.fullRate && elapsed >= t.total
  {
    if elapsed < t.fullRate then FullRate
    else if elapsed < t.total then Dribble
    else Off
  }

  /** The throttle a running pump's `loop` writes: one of its two speeds, or zero. */
  function ThrottleAt(elapsed: real, t: DeliveryTimes, throttle: real, dribble: real): (r: real)
    ensures r == throttle || r == dribble || r == 0.0
    ensures Phase(elapsed, t) == FullRate ==> r == throttle
    ensures Phase(elapsed, t) == Dribble ==> r == dribble
    ensures Phase(elapsed, t) == Off ==> r == 0.0
  {
    if elapsed < t.fullRate then throttle
    else if elapsed >= t.fullRate && elapsed < t.total then dribble
    else if elapsed >= t.total then 0.0
    else assert false; 0.0
  }

  /**
   * When the dribble time is not negative the phases only move forward:
   * full rate, then dribble, then off, never back.
   */
  lemma PhasesMoveForward(e1: real, e2: real, t: DeliveryTimes)
    requires t.dribble >= 0.0 && t.total == t.fullRate + t.dribble && e1 <= e2
    ensures Phase(e1, t) == Off ==> Phase(e2, t) == Off
    ensures Phase(e2, t) == FullRate ==> Phase(e1, t) == FullRate
  {
  }

  /**
   * Because of the division, a larger dose gets a SHORTER full-rate time:
   * above the pre-activation volume, the full-rate time falls as `mL` grows.
   */
  lemma FullRateTimeFallsWithVolume(m1: real, m2: real, fullRateSecPerMl: real, dribbleSecPerMl: real)
    requires LiquidPreact < m1 < m2 && fullRateSecPerMl > 0.0
    ensures ComputeTimes(m1, fullRateSecPerMl, dribbleSecPerMl).Ok?
    ensures ComputeTimes(m2, fullRateSecPerMl, dribbleSecPerMl).Ok?
    ensures ComputeTimes(m2, fullRateSecPerMl, dribbleSecPerMl).value.fullRate
          < ComputeTimes(m1, fullRateSecPerMl, dribbleSecPerMl).value.fullRate
  {
    DivisionFallsWithDivisor(fullRateSecPerMl, m1 - LiquidPreact, m2 - LiquidPreact);
  }

  /** A positive quantity divided by a larger positive divisor gives a smaller quotient. */
  lemma DivisionFallsWithDivisor(k: real, d1: real, d2: real)
    requires k > 0.0 && 0.0 < d1 < d2
    ensures k / d2 < k / d1
  {
  }

  /** Ten millilitres at the default rates: 20000/9 ms at full rate, 300000 ms dribbling. */
  lemma TenMillilitres()
    ensures ComputeTimes(10.0, 20.0, 300.0) == Ok(DeliveryTimes(20000.0 / 9.0, 300000.0, 20000.0 / 9.0 + 300000.0))
  {
  }

  /** The delivery bookkeeping of a pump. */
  datatype PumpState = PumpState(
    liquidTotal: real, fullRateSecPerMl: real, dribbleSecPerMl: real,
    onTime: real, running: bool, times: DeliveryTimes)

  /** A freshly constructed pump: default rates, nothing computed, not running. */
  const IdlePump := PumpState(0.0, 20.0, 300.0, 0.0, false, DeliveryTimes(0.0, 0.0, 0.0))

  /**
   * `deliver_liquid(mL)` at time `now`: ignored while running; otherwise the
   * volume is recorded, then (unless the division raises) the durations are
   * computed, the start time taken and the pump marked running.
   */
  function Deliver(p: PumpState, mL: real, now: real): (r: (PumpState, Outcome<DeviceError>))
    ensures p.running ==> r == (p, Pass)
    ensures !p.running ==> (r.1.Fail? <==> mL == LiquidPreact)
    ensures !p.running && r.1.Fail? ==> r.0 == p.(liquidTotal := mL)
    ensures !p.running && r.1.Pass? ==>
      && r.0 == p.(liquidTotal := mL, times := r.0.times, onTime := now, running := true)
      && Ok(r.0.times) == ComputeTimes(mL, p.fullRateSecPerMl, p.dribbleSecPerMl)
  {
    if p.running then (p, Pass)
    else
      var p1 := p.(liquidTotal := mL);
      match ComputeTimes(mL, p1.fullRateSecPerMl, p1.dribbleSecPerMl)
      case Err(e) => (p1, Fail(e))
      case Ok(t) => (p1.(times := t, onTime := now, running := true), Pass)
  }

  /** The throttle `loop` writes at time `now`: zero unless running. */
  function LoopThrottle(p: PumpState, now: real, throttle: real, dribble: real): (r: real)
    ensures r == throttle || r == dribble || r == 0.0
    ensures !p.running ==> r == 0.0
    ensures p.running ==> r == ThrottleAt(now - p.onTime, p.times, throttle, dribble)
  {
    if p.running then ThrottleAt(now - p.onTime, p.times, throttle, dribble) else 0.0
  }

  /** A request made of the pump from the control loop. */
  datatype PumpRequest = DeliverRequest(mL: real, now: real) | LoopRequest(now: real) | SetupRequest(fast: real, slow: real)

  /** The pump's bookkeeping after `p` handles one request. */
  function Handle(p: PumpState, q: PumpRequest): (r: PumpState)
    ensures q.LoopRequest? ==> r == p
    ensures q.SetupRequest? ==> r.fullRateSecPerMl == q.fast && r.dribbleSecPerMl == q.slow
    ensures !q.SetupRequest? ==> r.fullRateSecPerMl == p.fullRateSecPerMl && r.dribbleSecPerMl == p.dribbleSecPerMl
    ensures p.running ==> r == p.(fullRateSecPerMl := r.fullRateSecPerMl, dribbleSecPerMl := r.dribbleSecPerMl)
    ensures q.SetupRequest? ==> r == p.(fullRateSecPerMl := q.fast, dribbleSecPerMl := q.slow)
    ensures q.DeliverRequest? ==> r == Deliver(p, q.mL, q.now).0
  {
    match q
    case DeliverRequest(mL, now) => Deliver(p, mL, now).0
    case LoopRequest(_) => p
    case SetupRequest(fast, slow) => p.(fullRateSecPerMl := fast, dribbleSecPerMl := slow)
  }

  /** The bookkeeping after handling the requests `qs` in order. */
  function HandleAll(p: PumpState, qs: seq<PumpRequest>): (r: PumpState)
    ensures (forall i :: 0 <= i < |qs| ==> !qs[i].SetupRequest?) ==>
      r.fullRateSecPerMl == p.fullRateSecPerMl && r.dribbleSecPerMl == p.dribbleSecPerMl
    decreases |qs|
  {
    if qs == [] then p else HandleAll(Handle(p, qs[0]), qs[1..])
  }

  /**
   * Nothing resets `running`: once a delivery has started, the pump keeps
   * running, and every later delivery request is ignored, whatever the
   * control loop asks of it.
   */
  lemma {:induction false} RunningIsSticky(p: PumpState, qs: seq<PumpRequest>)
    requires p.running
    ensures HandleAll(p, qs).running
    ensures HandleAll(p, qs).times == p.times && HandleAll(p, qs).onTime == p.onTime
    ensures HandleAll(p, qs).liquidTotal == p.liquidTotal
    decreases |qs|
  {
    if qs != [] {
      RunningIsSticky(Handle(p, qs[0]), qs[1..]);
    }
  }

  /**
   * The clock counts seconds but the durations are milliseconds: ten
   * millilitres started at time 0 still run at full throttle 2000 seconds
   * later, and dribble until 302222 seconds have passed.
   */
  lemma SecondsAgainstMilliseconds(throttle: real, dribble: real)
    ensures Deliver(IdlePump, 10.0, 0.0).1 == Pass
    ensures LoopThrottle(Deliver(IdlePump, 10.0, 0.0).0, 2000.0, throttle, dribble) == throttle
    ensures LoopThrottle(Deliver(IdlePump, 10.0, 0.0).0, 302222.0, throttle, dribble) == dribble
  {
    TenMillilitres();
  }

  /** The pump: a DC motor driven at full rate, then at a dribble, then stopped. */
  class Pump {
    const device: KitOutput
    const throttle: real
    const dribble: real
    var liquidTotal: real
    var liquidCount: real
    var fullRateSecPerMl: real
    var dribbleSecPerMl: real
    var onTime: real
    var running: bool
    var fullRateTime: real
    var dribbleTime: real
    var totalDeliverTime: real
    /** Every value written to the motor's throttle, oldest first. */
    var throttleLog: seq<real>

    function State(): PumpState
      reads this
    {
      PumpState(liquidTotal, fullRateSecPerMl, dribbleSecPerMl, onTime, running,
                DeliveryTimes(fullRateTime, dribbleTime, totalDeliverTime))
    }

    constructor (device: KitOutput, throttle: real, dribble: real)
      requires device in {Motor1, Motor2, Motor3, Motor4}
      ensures State() == IdlePump && liquidCount == 0.0 && throttleLog == []
      ensures this.device == device && this.throttle == throttle && this.dribble == dribble
    {
      this.device := device;
      this.throttle := throttle;
      this.dribble := dribble;
      liquidTotal := 0.0;
      liquidCount := 0.0;
      fullRateSecPerMl := 20.0;
      dribbleSecPerMl := 300.0;
      onTime := 0.0;
      running := false;
      fullRateTime := 0.0;
      dribbleTime := 0.0;
      totalDeliverTime := 0.0;
      throttleLog := [];
    }

    /** `Pump(control, motor_number, throttle, dribble)`: raises for a motor number outside 1 to 4. */
    static method Create(motorNumber: int := 1, throttle: real := 0.75, dribble: real := 0.25) returns (r: Result<Pump, DeviceError>)
      ensures r.Err? <==> SelectDcMotor(motorNumber).Err?
      ensures r.Err? ==> r.error == InvalidMotorNumber
      ensures r.Ok? ==> fresh(r.value) && r.value.State() == IdlePump && r.value.throttleLog == []
      ensures r.Ok? ==> Ok(r.value.device) == SelectDcMotor(motorNumber)
      ensures r.Ok? ==> r.value.throttle == throttle && r.value.dribble == dribble
    {
      match SelectDcMotor(motorNumber)
      case Ok(device) =>
        var p := new Pump(device, throttle, dribble);
        r := Ok(p);
      case Err(e) =>
        r := Err(e);
    }

    method IsRunning() returns (b: bool)
      ensures b == running
    {
      b := running;
    }

    /** `setup`: stops the motor and sets the two rates. */
    method Setup(fastRateSecPerMl: real := 20.0, dribbleRateSecPerMl: real := 300.0)
      modifies this
      ensures State() == Handle(old(State()), SetupRequest(fastRateSecPerMl, dribbleRateSecPerMl))
      ensures throttleLog == old(throttleLog) + [0.0]
      ensures liquidCount == old(liquidCount)
    {
      throttleLog := throttleLog + [0.0];
      fullRateSecPerMl := fastRateSecPerMl;
      dribbleSecPerMl := dribbleRateSecPerMl;
    }

    /** `deliver_liquid(mL)` at time `now`, as specified by `Deliver`. */
    method DeliverLiquid(mL: real, now: real) returns (r: Outcome<DeviceError>)
      modifies this
      ensures (State(), r) == Deliver(old(State()), mL, now)
      ensures throttleLog == old(throttleLog) && liquidCount == old(liquidCount)
    {
      r := Pass;
      var busy := IsRunning();
      if !busy {
        liquidTotal := mL;
        var fullRateLiquid := liquidTotal - LiquidPreact;
        if fullRateLiquid == 0.0 {
          return Fail(ZeroDivision);
        }
        fullRateTime := (fullRateSecPerMl / fullRateLiquid) * 1000.0;
        dribbleTime := (dribbleSecPerMl / LiquidPreact) * 1000.0;
        totalDeliverTime := fullRateTime + dribbleTime;
        onTime := now;
        running := true;
      }
    }

    /** `loop` at time `now`: writes the throttle `LoopThrottle` gives, and changes nothing else. */
    method Loop(now: real)
      modifies this
      ensures State() == old(State()) && liquidCount == old(liquidCount)
      ensures throttleLog == old(throttleLog) + [LoopThrottle(old(State()), now, throttle, dribble)]
    {
      var busy := IsRunning();
      if busy {
        var deltaTime := now - onTime;
        if deltaTime < fullRateTime {
          throttleLog := throttleLog + [throttle];
        } else if deltaTime >= fullRateTime && deltaTime < totalDeliverTime {
          throttleLog := throttleLog + [dribble];
        } else if deltaTime >= totalDeliverTime {
          throttleLog := throttleLog + [0.0];
        }
      } else {
        throttleLog := throttleLog + [0.0];
      }
    }
  }
}
