/** The `Motor` driver class for one TB6612 channel, with the instance fields
    its methods update in place.  What the GPIO library is asked to do is
    recorded, in call order, in the ghost append-only `trace`; every method is
    proved to do what the matching function of MotorSpec describes.
 */
module TB6612 {
  import opened MotorSpec

  class Motor {
    const directionChannel: int
    const pwmChannel: int
    const offset: bool
    var forwardOffset: bool
    var backwardOffset: bool
    var speed: int
    var debug: bool

    /** Every GPIO call this motor has made, oldest first. */
    ghost var trace: seq<Event>

    /** The instance fields as a MotorSpec value. */
    ghost function State(): MotorState
      reads this
    {
      MotorState(directionChannel, pwmChannel, offset, forwardOffset, backwardOffset, speed, debug)
    }

    /** The object invariant: the fields satisfy MotorSpec.Valid and the PWM
        line runs at the stored speed. */
    ghost predicate Valid()
      reads this
    {
      MotorSpec.Valid(State()) && CurrentDuty(trace) == Some(speed)
    }

    /** `Motor(direction_channel, pwm_channel, offset=True)`. */
    constructor (directionChannel: int, pwmChannel: int, offset: bool := true)
      ensures Valid()
      ensures History(State(), trace) == Init(directionChannel, pwmChannel, offset)
      ensures this.directionChannel == directionChannel && this.pwmChannel == pwmChannel
      ensures this.offset == offset && forwardOffset == offset && backwardOffset == !offset
      ensures speed == 0 && debug == DEBUG_DEFAULT
      ensures trace == [SetupOutput(directionChannel), SetupOutput(pwmChannel), PwmStart(pwmChannel, PWM_FREQUENCY, 0)]
    {
      this.directionChannel := directionChannel;
      this.pwmChannel := pwmChannel;
      this.offset := offset;
      forwardOffset := offset;
      backwardOffset := !offset;
      debug := DEBUG_DEFAULT;
      speed := 0;
      trace := [SetupOutput(directionChannel), SetupOutput(pwmChannel)];
      trace := trace + [PwmStart(pwmChannel, PWM_FREQUENCY, 0)];
    }

    /** `set_speed(value)`: validate, then store and write the duty cycle. */
    method SetSpeed(value: int) returns (error: Option<Error>)
      requires Valid()
      modifies this
      ensures Valid()
      ensures old(trace) <= trace
      ensures Outcome(State(), trace[|old(trace)|..], error) == MotorSpec.SetSpeed(old(State()), value)
      ensures error.Some? <==> !InSpeedRange(value)
      ensures error.Some? ==> error == Some(SpeedOutOfRange(value)) && State() == old(State()) && trace == old(trace)
      ensures error.None? ==> speed == value && trace == old(trace) + [DutyCycle(value)]
      ensures forwardOffset == old(forwardOffset) && backwardOffset == old(backwardOffset) && debug == old(debug)
    {
      if !InSpeedRange(value) {
        return Some(SpeedOutOfRange(value));
      }
      speed := value;
      trace := trace + [DutyCycle(value)];
      error := None;
    }

    /** `forward()`: latch the forward level on the direction pin, then re-apply the speed. */
    method Forward()
      requires Valid()
      modifies this
      ensures Valid()
      ensures State() == old(State())
      ensures trace == old(trace) + [DigitalWrite(directionChannel, forwardOffset), DutyCycle(speed)]
      ensures Outcome(State(), trace[|old(trace)|..], None) == MotorSpec.Forward(old(State()))
      ensures DirectionLevel(trace) == Some(forwardOffset) && CurrentDuty(trace) == Some(speed)
    {
      trace := trace + [DigitalWrite(directionChannel, forwardOffset)];
      LatestAppend(old(trace), [DigitalWrite(directionChannel, forwardOffset)], DutyOf);
      var error := SetSpeed(speed);
      assert error == None;
      MoveSetsLines(State(), old(trace));
    }

    /** `backward()`: latch the backward level on the direction pin, then re-apply the speed. */
    method Backward()
      requires Valid()
      modifies this
      ensures Valid()
      ensures State() == old(State())
      ensures trace == old(trace) + [DigitalWrite(directionChannel, backwardOffset), DutyCycle(speed)]
      ensures Outcome(State(), trace[|old(trace)|..], None) == MotorSpec.Backward(old(State()))
      ensures DirectionLevel(trace) == Some(backwardOffset) && CurrentDuty(trace) == Some(speed)
    {
      trace := trace + [DigitalWrite(directionChannel, backwardOffset)];
      LatestAppend(old(trace), [DigitalWrite(directionChannel, backwardOffset)], DutyOf);
      var error := SetSpeed(speed);
      assert error == None;
      MoveSetsLines(State(), old(trace));
    }

    /** `stop()`: `set_speed(0)`; the direction line is left as it was. */
    method Stop()
      requires Valid()
      modifies this
      ensures Valid()
      ensures State() == old(State()).(speed := 0)
      ensures trace == old(trace) + [DutyCycle(0)]
      ensures Outcome(State(), trace[|old(trace)|..], None) == MotorSpec.Stop(old(State()))
      ensures DirectionLevel(trace) == old(DirectionLevel(trace))
    {
      var error := SetSpeed(0);
      assert error == None;
      StopKeepsDirection(old(State()), old(trace));
    }

    /** `set_offset(value)`: re-derive both direction levels; no hardware write. */
    method SetOffset(value: Arg) returns (error: Option<Error>)
      requires Valid()
      modifies this
      ensures Valid()
      ensures Outcome(State(), [], error) == MotorSpec.SetOffset(old(State()), value)
      ensures trace == old(trace) && speed == old(speed) && debug == old(debug)
      ensures value.NonBool? ==> error == Some(OffsetNotBool) && State() == old(State())
      ensures value.Bool? ==> error == None && forwardOffset == value.b && backwardOffset == !value.b
    {
      if value.NonBool? {
        return Some(OffsetNotBool);
      }
      forwardOffset := value.b;
      backwardOffset := !forwardOffset;
      error := None;
    }

    /** `set_debug(value)`: change only the debug flag. */
    method SetDebug(value: Arg) returns (error: Option<Error>)
      requires Valid()
      modifies this
      ensures Valid()
      ensures Outcome(State(), [], error) == MotorSpec.SetDebug(old(State()), value)
      ensures trace == old(trace) && speed == old(speed)
      ensures forwardOffset == old(forwardOffset) && backwardOffset == old(backwardOffset)
      ensures value.NonBool? ==> error == Some(DebugNotBool) && debug == old(debug)
      ensures value.Bool? ==> error == None && debug == value.b
    {
      match value
      case NonBool =>
        error := Some(DebugNotBool);
      case Bool(b) =>
        debug := b;
        error := None;
    }
  }

  /** Motor on direction pin 17 and PWM pin 27: half speed forward, then the
      offset is flipped, so `backward()` drives the direction pin high. */
  method OffsetFlipScenario() returns (m: Motor)
    ensures fresh(m) && m.Valid()
    ensures m.speed == 50 && m.forwardOffset == false && m.backwardOffset == true
    ensures m.trace == [SetupOutput(17), SetupOutput(27), PwmStart(27, 1000, 0),
                        DutyCycle(50),
                        DigitalWrite(17, true), DutyCycle(50),
                        DigitalWrite(17, true), DutyCycle(50)]
  {
    m := new Motor(17, 27);
    var error := m.SetSpeed(50);
    m.Forward();
    error := m.SetOffset(Bool(false));
    m.Backward();
  }
}
