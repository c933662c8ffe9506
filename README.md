# Single-axis stepper motion controller

A Dafny model of the motion core of a stepper-motor driver
(`Src/stepperController.c`). One axis record is shared by two interrupt
handlers. The pulse-completion handler runs once per emitted step pulse. It
picks the direction, advances the position and detects arrival. The profile
controller runs at a fixed period. It starts moves, accelerates, decides when
to start braking, and relaxes braking that began too early. Both handlers
reprogram the step timer through the speed-step primitives.

The model has three modules:

- `StepperSpec` (`stepper_spec.dfy`) is the value-level model. It holds the
  axis record `Axis`, the status as a primary state plus the BREAKING and
  BREAKCORRECTION flags, and the effects the core has outside the record
  (`Effect`: timer PSC/ARR writes, the direction pin, PWM start/stop, the
  forced update event, serial writes). It has one transition function per
  source operation. Each returns the new record and the effects in source order.
  `Inv` is the invariant that every reachable record satisfies.
- `StepperProperties` (`stepper_properties.dfy`) runs sequences of events
  (pulse interrupt, controller interrupt, the caller rewriting the target)
  and proves properties that span several calls.
- `StepperController` (`stepper_controller.dfy`) has the class `Stepper`
  with the C record's fields. Its methods follow the C statements in order.
  Each one is proved to produce exactly the record and effects of the matching
  `StepperSpec` transition. Effects are appended to a ghost `log`.

Assumptions about the header, which is not part of this model:

- `SS_STOPPED`, `SS_STARTING`, `SS_RUNNING_FORWARD`, `SS_RUNNING_BACKWARD`,
  `SS_BREAKING` and `SS_BREAKCORRECTION` are distinct single bits, and exactly
  one primary bit is set at a time.
- `STEP_TIMER_CLOCK` and `STEP_CONTROLLER_PERIOD_US` are constants. They are
  the `Platform` parameter, and the period must be positive.
- The speed and position fields are integers wide enough for the values the
  invariant allows.

Behaviour of the code that its comments do not suggest:

- `IncrementSPS` has no clamp at `maxSPS` (Src/stepperController.c:37-38).
  A record with the initial configuration at speed 399900 steps up to 400050,
  which is above `maxSPS = 400000` (`SpeedCanExceedMax`). The proved bound is
  `currentSPS < maxSPS + accelerationSPS`.
- The comment at Src/stepperController.c:20 says "calculate the minimum
  prescaler". The prescaler `ticks / 0xFFFF` is sufficient but not always the
  least one that fits. For 131070 ticks it is 2, although 1 already fits
  (`PrescalerNotAlwaysLeast`).
- The comment at Src/stepperController.c:10 says `GetStepsToTarget` returns an
  absolute value. It returns a signed distance, which is negative after an
  overshoot.
- The controller tests Stopped with a bit test (`status & SS_STOPPED`, line 80)
  and Starting with an exact comparison (`status == SS_STARTING`, line 90). The
  model keeps both forms.
- If the caller rewrites the target onto the current position while the axis
  is Starting, the axis stays in Starting with PWM running. The pulse handler
  has no branch for equal positions (lines 46-52), and the controller returns
  at once in Starting (lines 90-91). Proved by `StuckInStarting`.

## Model

| member | source | states |
|---|---|---|
| `StepperSpec.StepDirectionUnit` | Src/stepperController.c:5-7 | The step unit is −1 exactly when the primary state is RunningBackward, otherwise +1. The flags play no part. |
| `StepperSpec.StepsToTarget` | Src/stepperController.c:9-12 | The signed distance to the target, measured in the direction of travel. Its magnitude is \|target − current\|. It is 0 exactly on target and positive exactly while the target is still ahead. |
| `StepperSpec.PrescaledFits` | Src/stepperController.c:19-23 | For a tick count above 0xFFFF, the prescaler ticks/0xFFFF is at least 1. The divided count fits 16 bits, stays at least 0x7FFF, and is the floor quotient by (PSC+1). |
| `StepperSpec.TimerSetting` | Src/stepperController.c:14-27 | ARR ≤ 0xFFFF always. PSC = 0 and ARR = clock/SPS exactly when that quotient fits. Otherwise PSC ≥ 1 and ARR ≥ 0x7FFF. (PSC+1)·ARR ≤ clock/SPS < (PSC+1)·(ARR+1), so the programmed period is short by less than PSC+1 clocks. |
| `StepperSpec.Decelerated` | Src/stepperController.c:29-34 | Keeps the speed invariant. Above minSPS the speed drops by exactly accelerationSPS and the timer is reprogrammed for the new speed. At minSPS nothing changes. No other field changes. |
| `StepperSpec.Accelerated` | Src/stepperController.c:36-41 | Keeps the speed invariant, so the speed stays below maxSPS + accelerationSPS. Below maxSPS the speed rises by exactly accelerationSPS and the timer is reprogrammed. Otherwise nothing changes. No other field changes. |
| `StepperSpec.PulseStep` | Src/stepperController.c:43-75 | Stopped: no-op. Starting on target: no-op. Starting off target: enters the running state that faces the target (StepsToTarget > 0), clears both flags and writes the matching pin level. Running: moves exactly one step in the direction of travel, so the remaining distance drops by 1. It stops, emitting PWM stop and "name", ".stop:", position, "\r\n", exactly when the remaining distance is ≤ 0 at minSPS. Otherwise it changes nothing else. Preserves Inv. |
| `StepperSpec.ControllerStep` | Src/stepperController.c:77-151 | Preserves Inv: the countdown stays in [1, P] and the two flags are never both set. It never moves the position. It changes the speed by at most one step. Stopped on target: no-op. Stopped off target: Starting, countdown refilled, update forced and PWM started. Starting: no-op. At the brake point: records breakInitiationSPS, sets BREAKING, clears BREAKCORRECTION and steps down once. Sub-period not over: counts down only. Sub-period over while braking: steps down, and swaps BREAKING for BREAKCORRECTION when the over-estimation test holds. With neither flag: steps up. With BREAKCORRECTION only: coasts. |
| `StepperSpec.BrakeNowExact` | Src/stepperController.c:102-109 | The integer brake test holds exactly when the source's comparison holds in exact real arithmetic: 2·steps/(current+min) ≤ (PERIOD_US/10^6)·(P·switches + ticks). |
| `StepperSpec.RelaxBrakingExact` | Src/stepperController.c:130-137 | The over-estimation test holds exactly when the speed is more than 10 steps above the minimum and at least one step below the midpoint between the brake-start speed and the minimum. |
| `StepperSpec.Initial` | Src/stepperController.c:153-182 | Satisfies Inv. Stopped at position 0 with target 0. min = acceleration = current = 150 and max = 400000. breakInitiationSPS = max. P controller periods are the first whole number of periods longer than the step interval at 301 SPS. The countdown is full and ARR preload is enabled. |
| `StepperProperties.Apply` | Src/stepperController.c:43-151 | Any single interrupt or target rewrite preserves Inv and the configuration fields. |
| `StepperProperties.Run` | Src/stepperController.c:43-151 | Any sequence of interrupts and target rewrites preserves Inv and the configuration fields. |
| `StepperProperties.ReachableBounds` | Src/stepperController.c:164-173 | Every record reachable from initialisation has a speed that is a positive multiple of 150 in [150, 400150). Its countdown is in [1, P], and BREAKING and BREAKCORRECTION are never both set. |
| `StepperProperties.SpeedCanExceedMax` | Src/stepperController.c:36-41 | From speed 399900, one increment gives 400050, which is above maxSPS. |
| `StepperProperties.PrescalerNotAlwaysLeast` | Src/stepperController.c:19-23 | 131070 ticks get PSC 2 and ARR 43690, although PSC 1 would already fit. |
| `StepperProperties.AtRestStaysAtRest` | Src/stepperController.c:80-88 | Stopped on target, any number of pulse and controller interrupts leave the record unchanged and produce no effect. |
| `StepperProperties.CoastPrefix` | Src/stepperController.c:54-64 | Running at minSPS with the target d > 0 steps ahead, each of the first k < d pulses moves one step toward the target with no effect. |
| `StepperProperties.CoastToTarget` | Src/stepperController.c:54-72 | Running at minSPS with the target d > 0 steps ahead, exactly d pulses land the axis on the target and stop it. The only effect is one stop report carrying the target position. |
| `StepperProperties.OvershootStartsBraking` | Src/stepperController.c:95-123 | A running axis on or past its target that is not braking starts braking at the next controller call and records its current speed. |
| `StepperProperties.StuckInStarting` | Src/stepperController.c:43-91 | In Starting with the target on the current position, both handlers leave the record unchanged and produce no effect. |
| `StepperController.Stepper.InitStepperState` | Src/stepperController.c:153-182 | The new record and log equal `Initial`, and the record is valid. |
| `StepperController.Stepper.UpdateStepTimerToCurrentSPS` | Src/stepperController.c:14-27 | Appends exactly the PSC/ARR pair `TimerSetting` gives for the current speed. Nothing else changes. |
| `StepperController.Stepper.DecrementSPS` | Src/stepperController.c:29-34 | The record and log change exactly as `Decelerated` says. |
| `StepperController.Stepper.IncrementSPS` | Src/stepperController.c:36-41 | The record and log change exactly as `Accelerated` says. |
| `StepperController.Stepper.StepHandler` | Src/stepperController.c:43-75 | The record and log change exactly as `PulseStep` says, and validity is preserved. |
| `StepperController.Stepper.StepControllerHandler` | Src/stepperController.c:77-151 | The record and log change exactly as `ControllerStep` says, and validity is preserved. |

## Left out

- The brake decision uses an exact integer comparison: 2·steps·10^6 ≤ PERIOD_US·(P·switches + ticks)·(currentSPS + minSPS). `BrakeNowExact` proves it equal to the source's comparison in exact real arithmetic. The source compares single-precision floats (lines 102-109), and float rounding can decide differently near equality.
- The under/over-estimation report at lines 61-63 is an empty TODO with no behaviour, so it is not modelled.
- Hardware handles (timer handle, channel, GPIO port and pin) are opaque. HAL and register writes appear only as `Effect` values in the log. Serial output appears only as the strings and numbers written, not as its encoding.
- Interrupt concurrency is not modelled. The two handlers are modelled as atomic calls made one at a time.
- 32-bit integer widths are not modelled. `Inv` keeps speeds in [minSPS, maxSPS + accelerationSPS), so unsigned speed arithmetic cannot wrap from a reachable record. Position overflow near the int32 limits is not modelled.
- StepperSpec.Decelerated, StepperSpec.Accelerated: require the speed invariant. Outside it the source can divide by zero in the timer update or wrap unsigned speed values.
- StepperSpec.ControllerStep: requires `Inv`, which is what every reachable record satisfies. Outside it the source can divide by zero or wrap the countdown below zero.
- It is not proved that the controller starts braking early enough to avoid an overshoot. A complete move from 0 to 1000 is not proved either. What is proved is the final coasting phase at minimum speed (`CoastToTarget`) and that an overshoot triggers braking at once (`OvershootStartsBraking`).
- The frequency the timer actually produces depends on how the counter treats ARR. That hardware behaviour is not part of this model. The quantization bound is stated on (PSC+1)·ARR.
