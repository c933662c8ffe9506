/** Properties of sequences of handler invocations on one axis: the interrupt
    handlers run one at a time, interleaved with rewrites of the target position
    by the caller. */
module StepperProperties {
  import opened StepperSpec

  /** One thing that can happen to the axis record. */
  datatype Event = Pulse | ControllerTick | Retarget(position: int)

  /** The effect of one event: a pulse-completion interrupt, a profile-controller
      interrupt, or the caller writing targetPosition. */
  function Apply(a: Axis, hw: Platform, e: Event): (r: Outcome)
    requires Inv(a)
    ensures Inv(r.axis) && SameConfig(a, r.axis)
  {
    match e
    case Pulse => PulseStep(a)
    case ControllerTick => ControllerStep(a, hw)
    case Retarget(p) => Outcome(a.(targetPosition := p), [])
  }

  /** The record after a sequence of events, with all effects in order. Every
      record reached this way satisfies Inv and keeps its configuration. */
  function Run(a: Axis, hw: Platform, events: seq<Event>): (r: Outcome)
    requires Inv(a)
    ensures Inv(r.axis) && SameConfig(a, r.axis)
    decreases |events|
  {
    if events == [] then
      Outcome(a, [])
    else
      var first := Apply(a, hw, events[0]);
      var rest := Run(first.axis, hw, events[1..]);
      Outcome(rest.axis, first.effects + rest.effects)
  }

  function PulseEvents(n: nat): (evs: seq<Event>)
    ensures |evs| == n && forall i :: 0 <= i < n ==> evs[i] == Pulse
  {
    seq(n, i => Pulse)
  }

  /** Every record reachable from InitStepperState keeps the speed a positive
      multiple of MIN_SPS below MAX_SPS + MIN_SPS, the countdown in range and
      at most one braking flag set. */
  lemma ReachableBounds(name: string, hw: Platform, events: seq<Event>)
    requires hw.controllerPeriodUs > 0
    ensures var init := Initial(name, hw).axis;
      var a := Run(init, hw, events).axis;
      a.currentSPS % MIN_SPS == 0
      && MIN_SPS <= a.currentSPS < MAX_SPS + MIN_SPS
      && 1 <= a.stepCtrlPrescallerTicks <= init.stepCtrlPrescaller
      && !(a.status.breaking && a.status.breakCorrection)
  {
  }

  /** IncrementSPS does not clamp: from a record that satisfies Inv with the
      configuration of InitStepperState the speed can pass maxSPS. */
  lemma SpeedCanExceedMax(a: Axis, hw: Platform)
    requires Inv(a) && a.minSPS == a.accelerationSPS == MIN_SPS && a.maxSPS == MAX_SPS
    requires a.currentSPS == 399900
    ensures Accelerated(a, hw).axis.currentSPS == 400050 > a.maxSPS
  {
  }

  /** The source's prescaler is not always the least one that fits: 131070
      ticks get prescaler 2 although prescaler 1 already fits 16 bits. */
  lemma PrescalerNotAlwaysLeast()
    ensures TimerSetting(131070, 1) == TimerRegs(2, 43690)
    ensures 131070 / (1 + 1) <= COUNTER_MAX
  {
  }

  /** An axis stopped on its target stays exactly as it is, with no hardware
      or telemetry effect, under any number of interrupts of either kind. */
  lemma {:induction false} AtRestStaysAtRest(a: Axis, hw: Platform, events: seq<Event>)
    requires Inv(a) && a.status.primary == Stopped && a.targetPosition == a.currentPosition
    requires forall i :: 0 <= i < |events| ==> !events[i].Retarget?
    ensures Run(a, hw, events) == Outcome(a, [])
    decreases |events|
  {
    if events != [] {
      assert Apply(a, hw, events[0]) == Outcome(a, []);
      AtRestStaysAtRest(a, hw, events[1..]);
    }
  }

  /** While running at the minimum speed with the target d > 0 steps ahead, the
      first k < d pulses each move one step toward the target and do nothing else. */
  lemma {:induction false} CoastPrefix(a: Axis, hw: Platform, d: nat, k: nat)
    requires Inv(a) && a.status.primary.IsRunning() && a.currentSPS == a.minSPS
    requires StepsToTarget(a) == d && k < d
    ensures Run(a, hw, PulseEvents(k)) ==
      Outcome(a.(currentPosition := a.currentPosition + k * StepDirectionUnit(a.status)), [])
    decreases k
  {
    if k > 0 {
      var first := PulseStep(a);
      assert first == Outcome(a.(currentPosition := a.currentPosition + StepDirectionUnit(a.status)), []);
      assert PulseEvents(k)[1..] == PulseEvents(k - 1);
      CoastPrefix(first.axis, hw, d - 1, k - 1);
    }
  }

  /** While running at the minimum speed with the target d > 0 steps ahead,
      exactly d pulses bring the axis onto the target and stop it, and the only
      effect on the way is one arrival report naming the target position. */
  lemma {:induction false} CoastToTarget(a: Axis, hw: Platform, d: nat)
    requires Inv(a) && a.status.primary.IsRunning() && a.currentSPS == a.minSPS
    requires StepsToTarget(a) == d && d > 0
    ensures Run(a, hw, PulseEvents(d)) ==
      Outcome(a.(currentPosition := a.targetPosition, status := STOPPED), StopReport(a.name, a.targetPosition))
    decreases d
  {
    var first := PulseStep(a);
    assert PulseEvents(d)[1..] == PulseEvents(d - 1);
    if d == 1 {
      assert first.axis == a.(currentPosition := a.targetPosition, status := STOPPED);
    } else {
      CoastToTarget(first.axis, hw, d - 1);
    }
  }

  /** A running axis that is on or past its target and not yet braking starts
      braking at the very next controller invocation. */
  lemma OvershootStartsBraking(a: Axis, hw: Platform)
    requires Inv(a) && a.status.primary.IsRunning() && !a.status.breaking
    requires StepsToTarget(a) <= 0
    ensures BrakeNow(CountedDown(a), hw)
    ensures ControllerStep(a, hw).axis.status.breaking
    ensures ControllerStep(a, hw).axis.breakInitiationSPS == a.currentSPS
  {
  }

  /** If the target is rewritten onto the current position while the axis is
      Starting, neither handler leaves Starting: the pulse handler has no branch
      for equal positions and the controller returns at once in Starting. */
  lemma StuckInStarting(a: Axis, hw: Platform)
    requires Inv(a) && a.status == STARTING && a.targetPosition == a.currentPosition
    ensures PulseStep(a) == Outcome(a, [])
    ensures ControllerStep(a, hw) == Outcome(a, [])
  {
  }
}
