/** The stepper axis as the firmware holds it: one mutable record whose fields the
    two interrupt handlers update in place. Each method performs the source's
    statements in order and is proved to produce the record and the effects of
    the corresponding transition of StepperSpec. */
module StepperController {
  import opened StepperSpec

  class Stepper {
    /** STEP_TIMER_CLOCK and STEP_CONTROLLER_PERIOD_US. */
    const hw: Platform

    var name: string
    var status: Status
    var currentPosition: int
    var targetPosition: int
    var currentSPS: int
    var minSPS: int
    var maxSPS: int
    var accelerationSPS: int
    var breakInitiationSPS: int
    var stepCtrlPrescaller: int
    var stepCtrlPrescallerTicks: int

    /** Register writes, pin writes, PWM start/stop and serial output, in order. */
    ghost var log: seq<Effect>

    function Model(): Axis
      reads this
    {
      Axis(name, status, currentPosition, targetPosition, currentSPS, minSPS, maxSPS,
           accelerationSPS, breakInitiationSPS, stepCtrlPrescaller, stepCtrlPrescallerTicks)
    }

    ghost predicate Valid()
      reads this
    {
      Inv(Model())
    }

    constructor InitStepperState(name: string, hw: Platform)
      requires hw.controllerPeriodUs > 0
      ensures this.hw == hw
      ensures Model() == Initial(name, hw).axis
      ensures log == Initial(name, hw).effects
      ensures Valid()
    {
      this.hw := hw;
      log := [ArrPreloadEnabled];
      this.name := name;
      minSPS := MIN_SPS;
      maxSPS := MAX_SPS;
      currentSPS := MIN_SPS;
      accelerationSPS := MIN_SPS;
      stepCtrlPrescaller := 1 + (MICROS_PER_SECOND / (MIN_SPS + MIN_SPS + 1)) / hw.controllerPeriodUs;
      stepCtrlPrescallerTicks := stepCtrlPrescaller;
      targetPosition := 0;
      currentPosition := 0;
      breakInitiationSPS := MAX_SPS;
      status := STOPPED;
    }

    method UpdateStepTimerToCurrentSPS()
      requires currentSPS > 0
      modifies this`log
      ensures log == old(log) + [TimerProgrammed(TimerSetting(hw.timerClock, currentSPS))]
    {
      var prescaler := 0;
      var timerTicks := hw.timerClock / currentSPS;
      if timerTicks > COUNTER_MAX {
        prescaler := timerTicks / COUNTER_MAX;
        timerTicks := timerTicks / (prescaler + 1);
      }
      log := log + [TimerProgrammed(TimerRegs(prescaler, timerTicks))];
    }

    method DecrementSPS()
      requires SpeedInv(Model())
      modifies this`currentSPS, this`log
      ensures Model() == Decelerated(old(Model()), hw).axis
      ensures log == old(log) + Decelerated(old(Model()), hw).effects
    {
      if currentSPS > minSPS {
        StepDownStaysInRange(currentSPS, minSPS, accelerationSPS);
        currentSPS := currentSPS - accelerationSPS;
        UpdateStepTimerToCurrentSPS();
      }
    }

    method IncrementSPS()
      requires SpeedInv(Model())
      modifies this`currentSPS, this`log
      ensures Model() == Accelerated(old(Model()), hw).axis
      ensures log == old(log) + Accelerated(old(Model()), hw).effects
    {
      if currentSPS < maxSPS {
        currentSPS := currentSPS + accelerationSPS;
        UpdateStepTimerToCurrentSPS();
      }
    }

    /** The pulse-completion interrupt. */
    method StepHandler()
      modifies this`status, this`currentPosition, this`log
      ensures Model() == PulseStep(old(Model())).axis
      ensures log == old(log) + PulseStep(old(Model())).effects
      ensures old(Valid()) ==> Valid()
    {
      match status.primary
      case Starting =>
        if currentPosition > targetPosition {
          status := Status(RunningBackward, false, false);
          log := log + [DirectionPin(false)];
        } else if currentPosition < targetPosition {
          status := Status(RunningForward, false, false);
          log := log + [DirectionPin(true)];
        }
      case RunningForward | RunningBackward =>
        currentPosition := currentPosition + StepDirectionUnit(status);
        var stepsToTarget := StepsToTarget(Model());
        if stepsToTarget <= 0 && currentSPS == minSPS {
          status := STOPPED;
          log := log + StopReport(name, currentPosition);
        }
      case Stopped =>
    }

    /** The profile-controller interrupt. */
    method StepControllerHandler()
      requires Valid()
      modifies this
      ensures Model() == ControllerStep(old(Model()), hw).axis
      ensures log == old(log) + ControllerStep(old(Model()), hw).effects
      ensures Valid()
    {
      ghost var before := Model();
      var entry := status;

      if entry.primary == Stopped {
        if targetPosition != currentPosition {
          stepCtrlPrescallerTicks := stepCtrlPrescaller;
          status := STARTING;
          log := log + [UpdateForced, PwmStarted];
        }
        return;
      }

      if entry == STARTING {
        return;
      }

      stepCtrlPrescallerTicks := stepCtrlPrescallerTicks - 1;
      assert Model() == CountedDown(before);

      if !entry.breaking {
        var spsSwitches := (currentSPS - minSPS) / accelerationSPS;
        var brakeNow := 2 * StepsToTarget(Model()) * MICROS_PER_SECOND
          <= hw.controllerPeriodUs * (stepCtrlPrescaller * spsSwitches + stepCtrlPrescallerTicks) * (currentSPS + minSPS);
        assert brakeNow == BrakeNow(CountedDown(before), hw);
        if brakeNow {
          breakInitiationSPS := currentSPS;
          status := status.(breakCorrection := false);
          status := status.(breaking := true);
          DecrementSPS();
          if stepCtrlPrescallerTicks == 0 {
            stepCtrlPrescallerTicks := stepCtrlPrescaller;
          }
          return;
        }
      }

      if stepCtrlPrescallerTicks == 0 {
        if entry.breaking {
          var switchesOnBrakeInitiated := (breakInitiationSPS - minSPS) / accelerationSPS;
          var switchesLeft := (currentSPS - minSPS) / accelerationSPS;
          assert (switchesOnBrakeInitiated / 2 > switchesLeft && switchesLeft > CORRECTION_MARGIN) == RelaxBraking(Model());
          if switchesOnBrakeInitiated / 2 > switchesLeft && switchesLeft > CORRECTION_MARGIN {
            status := status.(breakCorrection := true);
            status := status.(breaking := false);
          }
          DecrementSPS();
        } else if !entry.breakCorrection {
          IncrementSPS();
        }
        stepCtrlPrescallerTicks := stepCtrlPrescaller;
      }
    }
  }
}
