/**
 * The motor actuator (motors/motors.c): a pin map, a duty clamp to
 * MOTOR_PERIOD, and direction-then-speed sequencing over the RP2040's GPIO and
 * PWM hardware. The hardware is modelled as the state the SDK calls leave
 * behind (output level of each GPIO, PWM level of each GPIO, wrap and enable
 * of each PWM slice) together with the ordered log of those calls.
 */
module Motors {

  /** MOTOR_PERIOD: the PWM wrap value (4 cycles, 0 to 3 inclusive). */
  const MotorPeriod: int := 3

  /** GPIO numbers M1, EN1, M2, EN2. */
  const M1: int := 2
  const EN1: int := 3
  const M2: int := 6
  const EN2: int := 7

  datatype Motor = FrontLeft | FrontRight

  /** MotorDirection; the level written to the direction pin is its enum value. */
  datatype Direction = Forward | Reverse

  function DirectionLevel(d: Direction): (level: int)
    ensures level == 0 || level == 1
    ensures level == 0 <==> d == Forward
  {
    match d
    case Forward => 0
    case Reverse => 1
  }

  datatype PinType = DirectionPin | SpeedPin

  /** `get_pin`: the GPIO wired to a motor's direction input or speed (enable) input. */
  function GetPin(motor: Motor, pinType: PinType): (pin: int)
    ensures (pin == M1 || pin == EN1) <==> motor == FrontLeft
    ensures (pin == M1 || pin == M2) <==> pinType == DirectionPin
  {
    match (motor, pinType)
    case (FrontLeft, DirectionPin) => M1
    case (FrontLeft, SpeedPin) => EN1
    case (FrontRight, DirectionPin) => M2
    case (FrontRight, SpeedPin) => EN2
  }

  /** The four pins are distinct, so no two motors and no two roles share a wire. */
  lemma GetPinInjective(m1: Motor, t1: PinType, m2: Motor, t2: PinType)
    ensures GetPin(m1, t1) == GetPin(m2, t2) <==> m1 == m2 && t1 == t2
    ensures GetPin(FrontLeft, DirectionPin) == 2 && GetPin(FrontLeft, SpeedPin) == 3
    ensures GetPin(FrontRight, DirectionPin) == 6 && GetPin(FrontRight, SpeedPin) == 7
  {
  }

  /** A `char` speed argument: 0..255 (plain char is unsigned on the RP2040). */
  type Speed = x: int | 0 <= x < 256

  /** The duty level `set_motor_speed` writes: the speed capped at MOTOR_PERIOD. */
  function DutyLevel(speed: Speed): (level: int)
    ensures 0 <= level <= MotorPeriod
    ensures level <= speed
    ensures level == speed || level == MotorPeriod
  {
    if speed > MotorPeriod then MotorPeriod else speed
  }

  /** The clamp is the identity up to the period and monotone in the speed. */
  lemma DutyLevelIsMin(a: Speed, b: Speed)
    ensures a <= MotorPeriod ==> DutyLevel(a) == a
    ensures a >= MotorPeriod ==> DutyLevel(a) == MotorPeriod
    ensures a <= b ==> DutyLevel(a) <= DutyLevel(b)
  {
  }

  /** One SDK call on the GPIO/PWM hardware. */
  datatype HwOp =
    | GpioInit(pin: int)
    | GpioSetDirOut(pin: int)
    | GpioSetFunctionPwm(pin: int)
    | GpioPut(pin: int, value: int)
    | PwmSetWrap(slice: int, wrap: int)
    | PwmSetGpioLevel(pin: int, level: int)
    | PwmSetEnabled(slice: int, enabled: bool)

  /** The calls `motor_init` makes, in order: the direction pin becomes a
      GPIO output, the speed pin a PWM output, and the slice gets its wrap.
      They touch only this motor's pins and neither drive nor start it. */
  function InitOps(motor: Motor, slice: int): (ops: seq<HwOp>)
    ensures |ops| == 4 && ops[3] == PwmSetWrap(slice, MotorPeriod)
    ensures forall k :: 0 <= k < |ops| && (ops[k].GpioInit? || ops[k].GpioSetDirOut? || ops[k].GpioSetFunctionPwm?) ==>
              ops[k].pin == GetPin(motor, DirectionPin) || ops[k].pin == GetPin(motor, SpeedPin)
    ensures forall k :: 0 <= k < |ops| ==> !ops[k].GpioPut? && !ops[k].PwmSetGpioLevel? && !ops[k].PwmSetEnabled?
  {
    [GpioInit(GetPin(motor, DirectionPin)), GpioSetDirOut(GetPin(motor, DirectionPin)),
     GpioSetFunctionPwm(GetPin(motor, SpeedPin)), PwmSetWrap(slice, MotorPeriod)]
  }

  /** The calls `set_motor_dir_speed` makes, in order: direction first, then
      wrap, duty and enable. */
  function DirSpeedOps(motor: Motor, slice: int, speed: Speed, dir: Direction): (ops: seq<HwOp>)
    ensures |ops| == 4 && ops[|ops| - 1] == PwmSetEnabled(slice, true)
    ensures forall k :: 0 <= k < |ops| && ops[k].GpioPut? ==> k == 0 && ops[k].value == DirectionLevel(dir)
    ensures forall k :: 0 <= k < |ops| && ops[k].PwmSetGpioLevel? ==> ops[k].pin == GetPin(motor, SpeedPin)
  {
    [GpioPut(GetPin(motor, DirectionPin), DirectionLevel(dir)),
     PwmSetWrap(slice, MotorPeriod),
     PwmSetGpioLevel(GetPin(motor, SpeedPin), DutyLevel(speed)),
     PwmSetEnabled(slice, true)]
  }

  /** The direction write comes before every speed write, and the duty never exceeds the period. */
  lemma DirectionWrittenBeforeSpeed(motor: Motor, slice: int, speed: Speed, dir: Direction)
    ensures var ops := DirSpeedOps(motor, slice, speed, dir);
            ops[0].GpioPut? && ops[0].pin == GetPin(motor, DirectionPin) &&
            forall k :: 0 <= k < |ops| && ops[k].PwmSetGpioLevel? ==> k > 0 && ops[k].level <= MotorPeriod
  {
  }

  class MotorDriver {
    /** `motor_slices`: the PWM slice of each motor's speed pin (zero until initialised). */
    var motorSlices: map<Motor, int>
    /** The level driven on each output GPIO. */
    var gpioOut: map<int, int>
    /** The PWM compare level of each GPIO. */
    var pwmLevel: map<int, int>
    /** The wrap (period) of each PWM slice. */
    var sliceWrap: map<int, int>
    /** Whether each PWM slice is running. */
    var sliceEnabled: map<int, bool>
    /** Every hardware call issued so far, oldest first. */
    var log: seq<HwOp>

    ghost predicate Valid()
      reads this
    {
      FrontLeft in motorSlices && FrontRight in motorSlices
    }

    constructor ()
      ensures Valid()
      ensures motorSlices == map[FrontLeft := 0, FrontRight := 0]
      ensures gpioOut == map[] && pwmLevel == map[] && sliceWrap == map[] && sliceEnabled == map[]
      ensures log == []
    {
      motorSlices := map[FrontLeft := 0, FrontRight := 0];
      gpioOut, pwmLevel, sliceWrap, sliceEnabled := map[], map[], map[], map[];
      log := [];
    }

    /** `motor_init`: configure the motor's pins, record its slice and set the
        slice's wrap to MOTOR_PERIOD. `slice` is what the SDK's
        `pwm_gpio_to_slice_num` gives for the motor's speed pin. The SDK's
        `gpio_init` clears the direction pin's output level to 0. */
    method Init(motor: Motor, slice: int) returns (r: int)
      requires Valid()
      modifies this
      ensures Valid()
      ensures r == slice
      ensures motorSlices == old(motorSlices)[motor := slice]
      ensures sliceWrap == old(sliceWrap)[slice := MotorPeriod]
      ensures gpioOut == old(gpioOut)[GetPin(motor, DirectionPin) := 0]
      ensures pwmLevel == old(pwmLevel) && sliceEnabled == old(sliceEnabled)
      ensures log == old(log) + InitOps(motor, slice)
    {
      var dirPin := GetPin(motor, DirectionPin);
      var speedPin := GetPin(motor, SpeedPin);
      gpioOut := gpioOut[dirPin := 0];
      log := log + [GpioInit(dirPin), GpioSetDirOut(dirPin), GpioSetFunctionPwm(speedPin)];
      motorSlices := motorSlices[motor := slice];
      sliceWrap := sliceWrap[slice := MotorPeriod];
      log := log + [PwmSetWrap(slice, MotorPeriod)];
      r := slice;
    }

    /** `motor_init_all`: initialise exactly the front-left and front-right motors. */
    method InitAll(frontLeftSlice: int, frontRightSlice: int)
      requires Valid()
      modifies this
      ensures Valid()
      ensures motorSlices == map[FrontLeft := frontLeftSlice, FrontRight := frontRightSlice]
      ensures sliceWrap == old(sliceWrap)[frontLeftSlice := MotorPeriod][frontRightSlice := MotorPeriod]
      ensures gpioOut == old(gpioOut)[M1 := 0][M2 := 0]
      ensures pwmLevel == old(pwmLevel) && sliceEnabled == old(sliceEnabled)
      ensures log == old(log) + InitOps(FrontLeft, frontLeftSlice) + InitOps(FrontRight, frontRightSlice)
    {
      var _ := Init(FrontLeft, frontLeftSlice);
      var _ := Init(FrontRight, frontRightSlice);
      assert motorSlices.Keys == {FrontLeft, FrontRight} by {
        forall m | m in motorSlices ensures m == FrontLeft || m == FrontRight {
          match m
          case FrontLeft =>
          case FrontRight =>
        }
      }
    }

    /** `motor_stop`: disable the motor's slice; direction, level and wrap stay. */
    method Stop(motor: Motor)
      requires Valid()
      modifies this
      ensures Valid() && motorSlices == old(motorSlices)
      ensures sliceEnabled == old(sliceEnabled)[motorSlices[motor] := false]
      ensures gpioOut == old(gpioOut) && pwmLevel == old(pwmLevel) && sliceWrap == old(sliceWrap)
      ensures log == old(log) + [PwmSetEnabled(motorSlices[motor], false)]
    {
      sliceEnabled := sliceEnabled[motorSlices[motor] := false];
      log := log + [PwmSetEnabled(motorSlices[motor], false)];
    }

    /** `set_motor_direction`: write the direction's level to the direction pin. */
    method SetDirection(motor: Motor, dir: Direction)
      requires Valid()
      modifies this
      ensures Valid() && motorSlices == old(motorSlices)
      ensures gpioOut == old(gpioOut)[GetPin(motor, DirectionPin) := DirectionLevel(dir)]
      ensures pwmLevel == old(pwmLevel) && sliceWrap == old(sliceWrap) && sliceEnabled == old(sliceEnabled)
      ensures log == old(log) + [GpioPut(GetPin(motor, DirectionPin), DirectionLevel(dir))]
    {
      var pin := GetPin(motor, DirectionPin);
      gpioOut := gpioOut[pin := DirectionLevel(dir)];
      log := log + [GpioPut(pin, DirectionLevel(dir))];
    }

    /** `set_motor_speed`: cap the speed at MOTOR_PERIOD, set the wrap, write the
        duty level and start the slice. */
    method SetSpeed(motor: Motor, speed: Speed)
      requires Valid()
      modifies this
      ensures Valid() && motorSlices == old(motorSlices)
      ensures sliceWrap == old(sliceWrap)[motorSlices[motor] := MotorPeriod]
      ensures pwmLevel == old(pwmLevel)[GetPin(motor, SpeedPin) := DutyLevel(speed)]
      ensures sliceEnabled == old(sliceEnabled)[motorSlices[motor] := true]
      ensures gpioOut == old(gpioOut)
      ensures log == old(log) + [PwmSetWrap(motorSlices[motor], MotorPeriod),
                                 PwmSetGpioLevel(GetPin(motor, SpeedPin), DutyLevel(speed)),
                                 PwmSetEnabled(motorSlices[motor], true)]
    {
      var level := speed;
      if level > MotorPeriod {
        level := MotorPeriod;
      }
      var slice := motorSlices[motor];
      sliceWrap := sliceWrap[slice := MotorPeriod];
      log := log + [PwmSetWrap(slice, MotorPeriod)];
      var pin := GetPin(motor, SpeedPin);
      pwmLevel := pwmLevel[pin := level];
      log := log + [PwmSetGpioLevel(pin, level)];
      sliceEnabled := sliceEnabled[slice := true];
      log := log + [PwmSetEnabled(slice, true)];
    }

    /** `set_motor_dir_speed`: the direction, then the speed. */
    method SetDirSpeed(motor: Motor, speed: Speed, dir: Direction)
      requires Valid()
      modifies this
      ensures Valid() && motorSlices == old(motorSlices)
      ensures gpioOut == old(gpioOut)[GetPin(motor, DirectionPin) := DirectionLevel(dir)]
      ensures pwmLevel == old(pwmLevel)[GetPin(motor, SpeedPin) := DutyLevel(speed)]
      ensures sliceWrap == old(sliceWrap)[motorSlices[motor] := MotorPeriod]
      ensures sliceEnabled == old(sliceEnabled)[motorSlices[motor] := true]
      ensures log == old(log) + DirSpeedOps(motor, motorSlices[motor], speed, dir)
    {
      SetDirection(motor, dir);
      SetSpeed(motor, speed);
    }

    /** `motor_forward`: direction pin driven to Motor_Forward (0), slice running at the capped duty. */
    method MoveForward(motor: Motor, speed: Speed)
      requires Valid()
      modifies this
      ensures Valid() && motorSlices == old(motorSlices)
      ensures gpioOut == old(gpioOut)[GetPin(motor, DirectionPin) := 0]
      ensures pwmLevel == old(pwmLevel)[GetPin(motor, SpeedPin) := DutyLevel(speed)]
      ensures sliceWrap == old(sliceWrap)[motorSlices[motor] := MotorPeriod]
      ensures sliceEnabled == old(sliceEnabled)[motorSlices[motor] := true]
      ensures log == old(log) + DirSpeedOps(motor, motorSlices[motor], speed, Forward)
    {
      SetDirSpeed(motor, speed, Forward);
    }

    /** `motor_reverse`: direction pin driven to Motor_Reverse (1), slice running at the capped duty. */
    method MoveReverse(motor: Motor, speed: Speed)
      requires Valid()
      modifies this
      ensures Valid() && motorSlices == old(motorSlices)
      ensures gpioOut == old(gpioOut)[GetPin(motor, DirectionPin) := 1]
      ensures pwmLevel == old(pwmLevel)[GetPin(motor, SpeedPin) := DutyLevel(speed)]
      ensures sliceWrap == old(sliceWrap)[motorSlices[motor] := MotorPeriod]
      ensures sliceEnabled == old(sliceEnabled)[motorSlices[motor] := true]
      ensures log == old(log) + DirSpeedOps(motor, motorSlices[motor], speed, Reverse)
    {
      SetDirSpeed(motor, speed, Reverse);
    }
  }

  /** The driver issues every command it is given: driving the same motor
      forward twice writes the hardware twice (there is no cache of the last
      command). */
  method ForwardTwiceWritesTwice(speed: Speed) returns (writes: seq<HwOp>)
    ensures writes == DirSpeedOps(FrontLeft, 1, speed, Forward) + DirSpeedOps(FrontLeft, 1, speed, Forward)
  {
    var d := new MotorDriver();
    d.InitAll(1, 3);
    var before := |d.log|;
    d.MoveForward(FrontLeft, speed);
    d.MoveForward(FrontLeft, speed);
    writes := d.log[before..];
  }
}
