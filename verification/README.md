# TB6612 motor channel — a verified Dafny model

The SunFounder TB6612 driver controls one channel of a TB6612 H-bridge
through two Raspberry Pi GPIO lines: a digital direction pin, whose level
selects the rotation sense, and a PWM pin, whose duty cycle (0–100 %) sets the
speed. Its `Motor` class keeps a speed, a pair of complementary direction
levels (`forward_offset`, `backward_offset`), the construction-time `offset`
and a debug flag. Its methods validate their argument, update those fields
and call the GPIO library.

The project has two modules:

- `MotorSpec` (`motor_spec.dfy`) is the value-level specification. The
  instance fields form a `MotorState`. Each Python method is a function from a
  state to an `Outcome`, which holds the new state, the GPIO calls made (in
  order) and the `ValueError` raised, if any. A GPIO call is an `Event`:
  `SetupOutput(pin)`, `PwmStart(pin, frequency, duty)`,
  `DigitalWrite(pin, level)` or `DutyCycle(percent)`. `Replay` runs a session
  of calls in which the caller catches each error and carries on. Lemmas state
  what holds over every such session: the class invariant, that the hardware
  only ever sees permitted writes, and that the PWM line always runs at the
  stored speed.
- `TB6612` (`motor.dfy`) holds the `Motor` class. Its fields are updated in
  place, and a ghost, append-only `trace` records every GPIO call. Each method
  is proved equal to the matching `MotorSpec` function: the same new fields,
  exactly the events that function emits appended to `trace`, and the same
  error. Each method also states its effect directly. `Motor.Valid()` is the
  object invariant: `0 <= speed <= 100`, `backwardOffset == !forwardOffset`,
  and the latest duty cycle on the PWM line equals `speed`.

`CurrentDuty` and `DirectionLevel` read the hardware's present state off a
trace: the value set by the last event that sets one. The helper lemma
`MotorSpec.LatestIsLast` proves that reading: the result is absent exactly when
no event sets a value, and otherwise it comes from an event after which none
does.

A setter argument of the Python driver is modelled as
`Arg = Bool(b) | NonBool`. This keeps the `ValueError` branches of
`set_offset` and `set_debug`. A speed is an `int`.

Three details of the code the model keeps:

- `set_offset` updates only `forward_offset` and `backward_offset`. The
  construction-time `offset` field is never reassigned.
- `set_offset` raises `ValueError` for a non-boolean argument.
- A new motor's debug flag comes from the class-level `_DEBUG` default, which
  is `False`.

## Model

| member | source | states |
|---|---|---|
| MotorSpec.Init | SunFounder_TB6612/TB6612.py:28-49 | a new motor has speed 0, keeps `offset`, has `forwardOffset == offset`, `backwardOffset == !offset`, debug off and its two pins; its events are exactly: both pins set up as outputs, then PWM started on the PWM pin at 1000 Hz with 0 % duty; so the PWM line runs at 0 % and no direction level has been written |
| MotorSpec.SetSpeed | SunFounder_TB6612/TB6612.py:51-58 | fails exactly when the value is outside 0..100; on failure the error is `SpeedOutOfRange(value)`, the state is unchanged and nothing is written; on success only `speed` changes, to the value, and exactly one duty-cycle write of the value is emitted, so the PWM line then runs at that value; the direction line is never touched |
| MotorSpec.Forward | SunFounder_TB6612/TB6612.py:60-65 | the first write is always `forwardOffset` to the direction pin; from a valid state it never fails, leaves the state unchanged and emits exactly that write followed by the stored speed as a duty cycle |
| MotorSpec.Backward | SunFounder_TB6612/TB6612.py:67-72 | the first write is always `backwardOffset` to the direction pin; from a valid state it never fails, leaves the state unchanged and emits that write (the complement of the forward level) followed by the stored speed |
| MotorSpec.Stop | SunFounder_TB6612/TB6612.py:74-78 | never fails; only `speed` changes, to 0; it emits exactly one duty-cycle write of 0, so the PWM line then runs at 0 % and no direction level is written |
| MotorSpec.SetOffset | SunFounder_TB6612/TB6612.py:80-87 | never writes to hardware; fails exactly on a non-boolean argument and then changes nothing; otherwise the forward level becomes the argument and the backward level its negation; speed, debug flag, pins and the construction-time `offset` are unchanged |
| MotorSpec.SetDebug | SunFounder_TB6612/TB6612.py:89-99 | never writes to hardware; fails exactly on a non-boolean argument and then changes nothing; otherwise only the debug flag changes |
| MotorSpec.Step | SunFounder_TB6612/TB6612.py:51-99 | every public call keeps the invariant and the wiring; from a valid state, a call that fails leaves the state unchanged and emits nothing; `forward`, `backward` and `stop` never fail |
| MotorSpec.ReplayKeepsInvariant | SunFounder_TB6612/TB6612.py:51-99 | after any session of calls from a valid state, the speed is in 0..100, the direction levels are complements, and the pins and `offset` are unchanged |
| MotorSpec.ReachableIsValid | SunFounder_TB6612/TB6612.py:28-99 | every state reachable by construction followed by any session has `0 <= speed <= 100` and `forwardOffset != backwardOffset` |
| MotorSpec.StepEmitsOnlyPermitted | SunFounder_TB6612/TB6612.py:51-99 | from a valid state, one call writes only to its own direction pin or sets an in-range duty cycle |
| MotorSpec.ReplayEmitsOnlyPermitted | SunFounder_TB6612/TB6612.py:51-99 | after construction, a session never reconfigures a pin or restarts PWM; it writes only to the motor's own direction pin and sets only duty cycles in 0..100 |
| MotorSpec.StepDutyIsSpeed | SunFounder_TB6612/TB6612.py:51-99 | if the PWM line runs at the stored speed before a call, it still does afterwards |
| MotorSpec.ReplayDutyIsSpeed | SunFounder_TB6612/TB6612.py:51-99 | the PWM line runs at the stored speed after any session, including calls that failed, provided it did before |
| MotorSpec.ConstructedDutyIsSpeed | SunFounder_TB6612/TB6612.py:28-99 | for a newly constructed motor followed by any session, the PWM line runs at the stored speed |
| MotorSpec.StopKeepsDirection | SunFounder_TB6612/TB6612.py:74-78 | after `stop`, whatever was written before, the direction line keeps its last level and the PWM line runs at 0 % |
| MotorSpec.MoveSetsLines | SunFounder_TB6612/TB6612.py:60-72 | after `forward` (`backward`), whatever was written before, the direction line holds the forward (backward) level and the PWM line runs at the stored speed |
| MotorSpec.OffsetTakesEffectOnNextMove | SunFounder_TB6612/TB6612.py:60-87 | `set_offset(b)` writes nothing, and the next `forward` writes `b` and the next `backward` writes `!b` to the direction pin, each followed by the unchanged speed |
| MotorSpec.RepeatedForward | SunFounder_TB6612/TB6612.py:60-65 | n calls of `forward` in a row leave the state unchanged and emit the forward direction write and the stored duty cycle, alternately, n times |
| TB6612.Motor.constructor | SunFounder_TB6612/TB6612.py:28-49 | establishes `Valid()`; the fields and trace are those of `MotorSpec.Init`: both pins set up as outputs, then PWM started on the PWM pin at 1000 Hz with 0 % duty; speed 0, levels `offset` and `!offset`, debug off |
| TB6612.Motor.SetSpeed | SunFounder_TB6612/TB6612.py:51-58 | keeps `Valid()`; agrees with `MotorSpec.SetSpeed`; the trace only grows; an out-of-range value raises `SpeedOutOfRange` and leaves fields and trace unchanged; otherwise `speed` becomes the value and exactly one `DutyCycle(value)` is appended; offsets and debug flag unchanged |
| TB6612.Motor.Forward | SunFounder_TB6612/TB6612.py:60-65 | keeps `Valid()` and all fields; appends exactly `DigitalWrite(direction pin, forwardOffset)` then `DutyCycle(speed)`; agrees with `MotorSpec.Forward`; afterwards the direction line holds the forward level |
| TB6612.Motor.Backward | SunFounder_TB6612/TB6612.py:67-72 | keeps `Valid()` and all fields; appends exactly `DigitalWrite(direction pin, backwardOffset)` then `DutyCycle(speed)`; agrees with `MotorSpec.Backward`; afterwards the direction line holds the backward level |
| TB6612.Motor.Stop | SunFounder_TB6612/TB6612.py:74-78 | keeps `Valid()`; only `speed` changes, to 0; appends exactly `DutyCycle(0)`; the direction line keeps its previous level; agrees with `MotorSpec.Stop` |
| TB6612.Motor.SetOffset | SunFounder_TB6612/TB6612.py:80-87 | keeps `Valid()`; appends nothing to the trace; leaves speed and debug unchanged; a non-boolean argument raises `OffsetNotBool` and changes nothing; otherwise the levels become `b` and `!b`; agrees with `MotorSpec.SetOffset` |
| TB6612.Motor.SetDebug | SunFounder_TB6612/TB6612.py:89-99 | keeps `Valid()`; appends nothing to the trace; leaves speed and offsets unchanged; a non-boolean argument raises `DebugNotBool` and leaves the flag unchanged; otherwise the flag becomes the argument; agrees with `MotorSpec.SetDebug` |
| TB6612.OffsetFlipScenario | SunFounder_TB6612/TB6612.py:28-85 | a motor on pins 17/27 is set to speed 50, then `forward`, then `set_offset(False)`, then `backward`; both direction writes are `True`, every duty write is 50, and the final levels are `False`/`True` |

## Left out

- The GPIO library is not part of this model. `GPIO.setup`, `GPIO.output`, `GPIO.PWM(...).start` and `ChangeDutyCycle` appear only as `Event`s in the ghost trace. Pins are opaque integers; BCM numbering is not modelled.
- The process-wide `GPIO.setwarnings(False)` and `GPIO.setmode(GPIO.BCM)` calls in the constructor (lines 40-41) are global library configuration with no contract; they are not recorded.
- All debug `print` output (lines 30-31, 43-45, 55-56, 64-65, 71-72, 76-77, 86-87, 96-99) is left out, because it only makes the driver observable. The message at line 87 prints the construction-time `self.offset`, not the new value. This has no effect on state.
- The `__main__` demonstration (lines 101-151) is left out. It sweeps the speed with `time.sleep` delays and has no logic beyond the calls modelled here.
- Python's dynamic typing is not modelled. Speeds are integers, so a float such as `50.0`, which `in range(0, 101)` accepts, is not represented. A boolean setter takes an `Arg`, which is either a boolean or "not a boolean". So `1` and `0`, which `in (True, False)` accepts, are not distinguished from `True` and `False`.
- The debug flag is a field of each motor, initialised from the class-level `_DEBUG` default (`False`). The model does not capture a change to the class attribute itself. `set_debug` assigns the instance attribute only.
- TB6612.Motor.SetSpeed: requires the object invariant `Valid()`, like every method of the class. The Python methods run on any state. Every state a `Motor` can reach satisfies the invariant (`MotorSpec.ReachableIsValid`), and the `MotorSpec` functions are stated for arbitrary states.
- A `ValueError` is returned as an `Option<Error>` value, not raised. `MotorSpec.Replay` models a caller that catches each error and continues.
