/** The per-tick orchestration of the drive-by-wire controller.

    `Tick` describes one call of `control` on values: the commands it returns,
    the states it leaves the three PIDs and the steering filter in, and the
    calls it makes on them, in order. The class `TwistController` is the
    object the scheduler drives; its methods are proved to do what `Tick` and
    the reset description say. */
module TwistControl {
  import opened Calls
  import opened PidControl
  import opened LowPass

  datatype Option<T> = None | Some(value: T)

  /** Gains and bounds fixed at construction. */
  const ThrottleGains: Gains := Gains(0.2, 0.005, 0.1, 0.0, 1.0)
  const BrakeGains: Gains := Gains(100.0, 0.001, 0.1, 0.1, 2000.0)

  function SteerGains(maxSteerAngle: real): Gains
  {
    Gains(0.7, 0.004, 0.3, -maxSteerAngle, maxSteerAngle)
  }

  const SteerFilterTau: real := 1.5
  const SteerFilterTs: real := 1.0

  /** A speed error below this clears the throttle integral before the step. */
  const FastBrakeThreshold: real := -1.0

  /** The feed-forward steering source: (target linear velocity, target
      angular velocity, current linear velocity) to a steering angle. */
  type YawController = (real, real, real) -> real

  /** What the controller is constructed with. */
  datatype Config = Config(yawController: YawController, maxSteerAngle: real, sampleRate: real)

  /** The states of the throttle, brake and steer PIDs and of the steer filter. */
  datatype Snapshot = Snapshot(throttle: PidState, brake: PidState, steer: PidState, filter: FilterState)

  const InitialSnapshot: Snapshot := Snapshot(Initial, Initial, Initial, Unprimed)

  datatype Inputs = Inputs(targetLinearVelocity: real, targetAngularVelocity: real,
                           currentLinearVelocity: real, cte: real)

  /** What `control` returns: throttle or brake (the other absent) and a steering angle. */
  datatype Command = Command(throttle: Option<real>, brake: Option<real>, steer: real)

  datatype TickResult = TickResult(cmd: Command, next: Snapshot, calls: seq<Call>)

  function LinearCte(i: Inputs): real
  {
    i.targetLinearVelocity - i.currentLinearVelocity
  }

  function FeedForward(c: Config, i: Inputs): real
  {
    c.yawController(i.targetLinearVelocity, i.targetAngularVelocity, i.currentLinearVelocity)
  }

  /** The throttle PID's state as its step finds it. */
  function ThrottleAtStep(c: Config, s: Snapshot, i: Inputs): PidState
  {
    if LinearCte(i) < FastBrakeThreshold then s.throttle.(errorIntegral := 0.0) else s.throttle
  }

  function ThrottleStep(c: Config, s: Snapshot, i: Inputs): StepResult
  {
    StepOf(ThrottleGains, ThrottleAtStep(c, s, i), LinearCte(i), c.sampleRate)
  }

  function BrakeStep(c: Config, s: Snapshot, i: Inputs): StepResult
  {
    StepOf(BrakeGains, s.brake, -LinearCte(i), c.sampleRate)
  }

  function SteerStep(c: Config, s: Snapshot, i: Inputs): StepResult
  {
    StepOf(SteerGains(c.maxSteerAngle), s.steer, i.cte, c.sampleRate)
  }

  function SteerSmoothing(c: Config, s: Snapshot, i: Inputs): FiltResult
  {
    FiltOf(SteerFilterTau, SteerFilterTs, s.filter, SteerStep(c, s, i).output)
  }

  /** The steer filter holds no value beyond the steer PID's bounds. */
  predicate FilterWithin(f: FilterState, maxSteerAngle: real)
  {
    f.ready ==> -maxSteerAngle <= f.lastValue <= maxSteerAngle
  }

  /** One call of `control`. */
  function Tick(c: Config, s: Snapshot, i: Inputs): (r: TickResult)
    // exactly one of throttle and brake is present
    ensures r.cmd.throttle.Some? != r.cmd.brake.Some?
    // throttle is present exactly when the throttle step is positive, and is that step's output
    ensures r.cmd.throttle.Some? <==> ThrottleStep(c, s, i).output > 0.0
    ensures r.cmd.throttle.Some? ==>
      r.cmd.throttle.value == ThrottleStep(c, s, i).output && 0.0 < r.cmd.throttle.value <= 1.0
    // more than 1 m/s too fast: the throttle integral restarts from zero, so an
    // accelerating tick leaves at most this one step's error in it
    ensures LinearCte(i) < FastBrakeThreshold && r.cmd.throttle.Some? ==>
      r.next.throttle.errorIntegral == 0.0 || r.next.throttle.errorIntegral == LinearCte(i) * c.sampleRate
    // otherwise an accelerating tick keeps the integral or adds this step's error to it
    ensures !(LinearCte(i) < FastBrakeThreshold) && r.cmd.throttle.Some? ==>
      r.next.throttle.errorIntegral == s.throttle.errorIntegral ||
      r.next.throttle.errorIntegral == s.throttle.errorIntegral + LinearCte(i) * c.sampleRate
    // braking: the brake PID's output on the negated speed error, within its bounds
    ensures r.cmd.brake.Some? ==>
      r.cmd.brake.value == BrakeStep(c, s, i).output && 0.1 <= r.cmd.brake.value <= 2000.0
    // accelerating: brake PID reset, throttle PID keeps its step's state
    ensures r.cmd.throttle.Some? ==> r.next.brake == Initial && r.next.throttle == ThrottleStep(c, s, i).next
    // braking: throttle PID reset, brake PID keeps its step's state
    ensures r.cmd.brake.Some? ==> r.next.throttle == Initial && r.next.brake == BrakeStep(c, s, i).next
    // steering: feed-forward plus the filtered steer PID output
    ensures r.cmd.steer == FeedForward(c, i) + SteerSmoothing(c, s, i).output
    ensures r.next.steer == SteerStep(c, s, i).next && r.next.filter == SteerSmoothing(c, s, i).next
    // the calls made, in order (see the lemmas on CallLog)
    ensures r.calls == CallLog(c, i, r.cmd.throttle.Some?, SteerStep(c, s, i).output)
    // the filtered feedback never exceeds the steering bound
    ensures c.maxSteerAngle >= 0.0 && FilterWithin(s.filter, c.maxSteerAngle) ==>
      FilterWithin(r.next.filter, c.maxSteerAngle) &&
      -c.maxSteerAngle <= r.cmd.steer - FeedForward(c, i) <= c.maxSteerAngle
  {
    var t := ThrottleStep(c, s, i);
    var b := BrakeStep(c, s, i);
    var st := SteerStep(c, s, i);
    var f := SteerSmoothing(c, s, i);
    var calls := CallLog(c, i, t.output > 0.0, st.output);
    if t.output > 0.0 then
      TickResult(Command(Some(t.output), None, FeedForward(c, i) + f.output),
                 Snapshot(t.next, Initial, st.next, f.next), calls)
    else
      TickResult(Command(None, Some(b.output), FeedForward(c, i) + f.output),
                 Snapshot(Initial, b.next, st.next, f.next), calls)
  }

  /** The calls one `control` makes on its collaborators, given the branch it
      takes and the steer PID's raw output: the optional integral clear, the
      throttle step with the branch taken, and the steering calls. */
  function CallLog(c: Config, i: Inputs, accelerating: bool, steerRaw: real): seq<Call>
  {
    ClearPart(i) + BranchPart(c, i, accelerating) + SteerPart(c, i, steerRaw)
  }

  function ClearPart(i: Inputs): seq<Call>
  {
    if LinearCte(i) < FastBrakeThreshold then [ClearIntegral(Throttle)] else []
  }

  function BranchPart(c: Config, i: Inputs, accelerating: bool): seq<Call>
  {
    var lin := LinearCte(i);
    if accelerating then [PidStep(Throttle, lin, c.sampleRate), PidReset(Brake)]
    else [PidStep(Throttle, lin, c.sampleRate), PidReset(Throttle), PidStep(Brake, -lin, c.sampleRate)]
  }

  function SteerPart(c: Config, i: Inputs, steerRaw: real): seq<Call>
  {
    [PidStep(Steer, i.cte, c.sampleRate), SteerFilt(steerRaw),
     GetSteering(i.targetLinearVelocity, i.targetAngularVelocity, i.currentLinearVelocity)]
  }

  /** Whether `call` steps the PID of `ch`. */
  function Steps(call: Call, ch: Channel): nat
  {
    if call.PidStep? && call.channel == ch then 1 else 0
  }

  /** How many times `calls` steps the PID of `ch`. */
  function StepCount(calls: seq<Call>, ch: Channel): nat
  {
    if calls == [] then 0 else Steps(calls[0], ch) + StepCount(calls[1..], ch)
  }

  lemma {:induction false} StepCountAppend(a: seq<Call>, b: seq<Call>, ch: Channel)
    ensures StepCount(a + b, ch) == StepCount(a, ch) + StepCount(b, ch)
  {
    if a != [] {
      assert (a + b)[0] == a[0];
      assert (a + b)[1..] == a[1..] + b;
      StepCountAppend(a[1..], b, ch);
    } else {
      assert a + b == b;
    }
  }

  lemma StepCountOfThree(x: Call, y: Call, z: Call, ch: Channel)
    ensures StepCount([x], ch) == Steps(x, ch)
    ensures StepCount([x, y], ch) == Steps(x, ch) + Steps(y, ch)
    ensures StepCount([x, y, z], ch) == Steps(x, ch) + Steps(y, ch) + Steps(z, ch)
  {
    assert [x][1..] == [];
    assert StepCount([x], ch) == Steps(x, ch) + StepCount([], ch);
    assert [x, y][1..] == [y];
    assert StepCount([x, y], ch) == Steps(x, ch) + StepCount([y], ch);
    assert [x, y, z][1..] == [y, z];
    assert StepCount([x, y, z], ch) == Steps(x, ch) + StepCount([y, z], ch);
    assert [y, z][1..] == [z];
    assert StepCount([y, z], ch) == Steps(y, ch) + StepCount([z], ch);
    assert [z][1..] == [];
    assert StepCount([z], ch) == Steps(z, ch) + StepCount([], ch);
  }

  /** `first` occurs in `calls` before `second`. */
  predicate Precedes(calls: seq<Call>, first: Call, second: Call)
  {
    exists j, k :: 0 <= j < k < |calls| && calls[j] == first && calls[k] == second
  }

  /** The integral clear comes immediately before the throttle step, and only
      when the car is more than 1 m/s faster than the target. */
  lemma ClearPrecedesThrottleStep(c: Config, i: Inputs, accelerating: bool, steerRaw: real)
    ensures var calls := CallLog(c, i, accelerating, steerRaw); var lin := LinearCte(i);
      (lin < FastBrakeThreshold ==>
        calls[0] == ClearIntegral(Throttle) && calls[1] == PidStep(Throttle, lin, c.sampleRate)) &&
      (!(lin < FastBrakeThreshold) ==>
        calls[0] == PidStep(Throttle, lin, c.sampleRate) && ClearIntegral(Throttle) !in calls)
  {
  }

  /** Each `control` steps the throttle and steer PIDs exactly once, and the
      brake PID once when braking and never when accelerating. */
  lemma StepsPerChannel(c: Config, i: Inputs, accelerating: bool, steerRaw: real)
    ensures var calls := CallLog(c, i, accelerating, steerRaw);
      StepCount(calls, Throttle) == 1 && StepCount(calls, Steer) == 1 &&
      StepCount(calls, Brake) == (if accelerating then 0 else 1)
  {
    var lin := LinearCte(i);
    var dt := c.sampleRate;
    var clear, branch, steerCalls := ClearPart(i), BranchPart(c, i, accelerating), SteerPart(c, i, steerRaw);
    forall ch: Channel
      ensures StepCount(CallLog(c, i, accelerating, steerRaw), ch) ==
        StepCount(clear, ch) + StepCount(branch, ch) + StepCount(steerCalls, ch)
    {
      StepCountAppend(clear + branch, steerCalls, ch);
      StepCountAppend(clear, branch, ch);
    }
    forall ch: Channel
      ensures StepCount(clear, ch) == 0
      ensures StepCount(steerCalls, ch) == Steps(steerCalls[0], ch)
      ensures StepCount(branch, ch) == Steps(branch[0], ch) + (if accelerating then 0 else Steps(branch[2], ch))
    {
      StepCountOfThree(ClearIntegral(Throttle), ClearIntegral(Throttle), ClearIntegral(Throttle), ch);
      StepCountOfThree(steerCalls[0], steerCalls[1], steerCalls[2], ch);
      if accelerating {
        StepCountOfThree(branch[0], branch[1], branch[1], ch);
      } else {
        StepCountOfThree(branch[0], branch[1], branch[2], ch);
      }
    }
  }

  /** Accelerating resets the brake PID and not the throttle PID; braking resets
      the throttle PID after its step, not the brake PID, and steps the brake
      PID on the negated speed error. */
  lemma ResetsPerBranch(c: Config, i: Inputs, accelerating: bool, steerRaw: real)
    ensures var calls := CallLog(c, i, accelerating, steerRaw); var lin := LinearCte(i);
      (accelerating ==> PidReset(Brake) in calls && PidReset(Throttle) !in calls) &&
      (!accelerating ==>
        Precedes(calls, PidStep(Throttle, lin, c.sampleRate), PidReset(Throttle)) &&
        PidReset(Brake) !in calls && PidStep(Brake, -lin, c.sampleRate) in calls)
  {
    var calls := CallLog(c, i, accelerating, steerRaw);
    if !accelerating {
      var n := |ClearPart(i)|;
      assert calls[n] == PidStep(Throttle, LinearCte(i), c.sampleRate);
      assert calls[n + 1] == PidReset(Throttle);
    }
  }

  /** Every PID step in `control` uses the sample rate as its time step. */
  lemma StepsUseSampleRate(c: Config, i: Inputs, accelerating: bool, steerRaw: real)
    ensures var calls := CallLog(c, i, accelerating, steerRaw);
      forall k :: 0 <= k < |calls| && calls[k].PidStep? ==> calls[k].dt == c.sampleRate
  {
  }

  /** The commands a sequence of `control` calls returns, starting from `s`;
      every one of them carries exactly one of throttle and brake. */
  function Run(c: Config, s: Snapshot, inputs: seq<Inputs>): (r: seq<Command>)
    ensures |r| == |inputs|
    ensures forall k :: 0 <= k < |r| ==> r[k].throttle.Some? != r[k].brake.Some?
    decreases |inputs|
  {
    if inputs == [] then []
    else
      var t := Tick(c, s, inputs[0]);
      [t.cmd] + Run(c, t.next, inputs[1..])
  }

  /** Over any sequence of ticks, throttle stays in (0, 1] and brake in [0.1, 2000]. */
  lemma {:induction false} RunWithinBounds(c: Config, s: Snapshot, inputs: seq<Inputs>)
    ensures var r := Run(c, s, inputs);
      forall k :: 0 <= k < |r| ==>
        (r[k].throttle.Some? ==> 0.0 < r[k].throttle.value <= 1.0) &&
        (r[k].brake.Some? ==> 0.1 <= r[k].brake.value <= 2000.0)
    decreases |inputs|
  {
    if inputs != [] {
      var t := Tick(c, s, inputs[0]);
      RunWithinBounds(c, t.next, inputs[1..]);
      assert Run(c, s, inputs) == [t.cmd] + Run(c, t.next, inputs[1..]);
      assert t.cmd.brake.Some? ==> 0.1 <= t.cmd.brake.value <= 2000.0;
      assert forall k :: 1 <= k < |inputs| ==> Run(c, s, inputs)[k] == Run(c, t.next, inputs[1..])[k - 1];
    }
  }

  /** Starting from a filter within the steering bound (a fresh one is), the
      filtered feedback part of every steering command stays within
      [-max_steer_angle, max_steer_angle]. */
  lemma {:induction false} RunSteerFeedbackBounded(c: Config, s: Snapshot, inputs: seq<Inputs>)
    requires c.maxSteerAngle >= 0.0 && FilterWithin(s.filter, c.maxSteerAngle)
    ensures var r := Run(c, s, inputs);
      forall k :: 0 <= k < |r| ==>
        -c.maxSteerAngle <= r[k].steer - FeedForward(c, inputs[k]) <= c.maxSteerAngle
    decreases |inputs|
  {
    if inputs != [] {
      var t := Tick(c, s, inputs[0]);
      RunSteerFeedbackBounded(c, t.next, inputs[1..]);
      assert Run(c, s, inputs) == [t.cmd] + Run(c, t.next, inputs[1..]);
      assert forall k :: 1 <= k < |inputs| ==> Run(c, s, inputs)[k] == Run(c, t.next, inputs[1..])[k - 1];
    }
  }

  class TwistController {
    const yawController: YawController
    const maxSteerAngle: real
    const sampleRate: real
    const throttlePidCtrl: PID
    const brakePidCtrl: PID
    const steerPidCtrl: PID
    const steerFilter: LowPassFilter
    /** The record the PIDs and the filter append their calls to. */
    const trace: CallTrace

    /** Three distinct PIDs and a filter, configured as at construction and
        all writing to this controller's trace. */
    ghost predicate Valid()
    {
      throttlePidCtrl.channel == Throttle && brakePidCtrl.channel == Brake && steerPidCtrl.channel == Steer &&
      throttlePidCtrl.Settings() == ThrottleGains &&
      brakePidCtrl.Settings() == BrakeGains &&
      steerPidCtrl.Settings() == SteerGains(maxSteerAngle) &&
      steerFilter.tau == SteerFilterTau && steerFilter.ts == SteerFilterTs && steerFilter.Valid() &&
      throttlePidCtrl.trace == trace && brakePidCtrl.trace == trace && steerPidCtrl.trace == trace &&
      steerFilter.trace == trace
    }

    function Cfg(): Config
    {
      Config(yawController, maxSteerAngle, sampleRate)
    }

    function Snap(): Snapshot
      reads throttlePidCtrl, brakePidCtrl, steerPidCtrl, steerFilter
    {
      Snapshot(throttlePidCtrl.State(), brakePidCtrl.State(), steerPidCtrl.State(), steerFilter.State())
    }

    constructor (yawController: YawController, maxSteerAngle: real, sampleRate: real)
      ensures Valid()
      ensures this.yawController == yawController && this.maxSteerAngle == maxSteerAngle
      ensures this.sampleRate == sampleRate
      ensures fresh(throttlePidCtrl) && fresh(brakePidCtrl) && fresh(steerPidCtrl) && fresh(steerFilter)
      ensures fresh(trace) && Snap() == InitialSnapshot && trace.calls == []
    {
      this.yawController := yawController;
      this.maxSteerAngle := maxSteerAngle;
      this.sampleRate := sampleRate;
      var trace := new CallTrace();
      this.trace := trace;
      throttlePidCtrl := new PID(0.2, 0.005, 0.1, 0.0, 1.0, Throttle, trace);
      brakePidCtrl := new PID(100.0, 0.001, 0.1, 0.1, 2000.0, Brake, trace);
      steerPidCtrl := new PID(0.7, 0.004, 0.3, -maxSteerAngle, maxSteerAngle, Steer, trace);
      steerFilter := new LowPassFilter(SteerFilterTau, SteerFilterTs, trace);
    }

    /** The first half of `control`: the optional integral clear, the throttle
        step, and the throttle-or-brake decision with the matching reset. */
    method Drive(ghost s: Snapshot, ghost i: Inputs, linearCte: real)
      returns (throttle: Option<real>, brake: Option<real>)
      requires Valid() && linearCte == LinearCte(i)
      requires s.throttle == throttlePidCtrl.State() && s.brake == brakePidCtrl.State()
      modifies throttlePidCtrl, brakePidCtrl, trace
      ensures var t := ThrottleStep(Cfg(), s, i); var b := BrakeStep(Cfg(), s, i);
        (t.output > 0.0 ==> throttle == Some(t.output) && brake == None &&
                             throttlePidCtrl.State() == t.next && brakePidCtrl.State() == Initial) &&
        (!(t.output > 0.0) ==> throttle == None && brake == Some(b.output) &&
                                throttlePidCtrl.State() == Initial && brakePidCtrl.State() == b.next)
      ensures trace.calls == old(trace.calls) + ClearPart(i) + BranchPart(Cfg(), i, ThrottleStep(Cfg(), s, i).output > 0.0)
    {
      // helps brake faster; a field write, so the clear is recorded here
      if linearCte < FastBrakeThreshold {
        throttlePidCtrl.errorIntegral := 0.0;
        trace.calls := trace.calls + [ClearIntegral(Throttle)];
      }
      ghost var cleared := trace.calls;

      var throttleOut := throttlePidCtrl.Step(linearCte, sampleRate);
      throttle := Some(throttleOut);
      brake := None;

      if throttleOut > 0.0 {
        brakePidCtrl.Reset();
      } else {
        throttle := None;
        throttlePidCtrl.Reset();
        var brakeOut := brakePidCtrl.Step(-linearCte, sampleRate);
        brake := Some(brakeOut);
      }
      assert trace.calls == cleared + BranchPart(Cfg(), i, throttleOut > 0.0);
    }

    /** The steering half of `control`: the steer PID step on cte and its smoothing. */
    method Steering(ghost s: Snapshot, ghost i: Inputs, angularCte: real) returns (steerFiltered: real)
      requires Valid() && angularCte == i.cte
      requires s.steer == steerPidCtrl.State() && s.filter == steerFilter.State()
      modifies steerPidCtrl, steerFilter, trace
      ensures steerFiltered == SteerSmoothing(Cfg(), s, i).output
      ensures steerPidCtrl.State() == SteerStep(Cfg(), s, i).next
      ensures steerFilter.State() == SteerSmoothing(Cfg(), s, i).next
      ensures trace.calls == old(trace.calls) + [PidStep(Steer, angularCte, sampleRate), SteerFilt(SteerStep(Cfg(), s, i).output)]
    {
      var steer := steerPidCtrl.Step(angularCte, sampleRate);
      steerFiltered := steerFilter.Filt(steer);
    }

    method Control(targetLinearVelocity: real, targetAngularVelocity: real,
                   currentLinearVelocity: real, cte: real) returns (cmd: Command)
      requires Valid()
      modifies throttlePidCtrl, brakePidCtrl, steerPidCtrl, steerFilter, trace
      ensures var t := Tick(Cfg(), old(Snap()),
                            Inputs(targetLinearVelocity, targetAngularVelocity, currentLinearVelocity, cte));
        cmd == t.cmd && Snap() == t.next && trace.calls == old(trace.calls) + t.calls
    {
      ghost var s := Snap();
      ghost var i := Inputs(targetLinearVelocity, targetAngularVelocity, currentLinearVelocity, cte);
      var linearCte := targetLinearVelocity - currentLinearVelocity;
      var throttle, brake := Drive(s, i, linearCte);
      ghost var driven := trace.calls;

      var angularCte := cte;
      var steerFiltered := Steering(s, i, angularCte);

      // the yaw controller is a function value, so its call is recorded here
      var steering := yawController(targetLinearVelocity, targetAngularVelocity, currentLinearVelocity);
      trace.calls := trace.calls + [GetSteering(targetLinearVelocity, targetAngularVelocity, currentLinearVelocity)];

      cmd := Command(throttle, brake, steering + steerFiltered);
      assert trace.calls == driven + SteerPart(Cfg(), i, SteerStep(Cfg(), s, i).output);
    }

    /** Resets the throttle and steer PIDs; the brake PID and the filter keep their state. */
    method Reset()
      requires Valid()
      modifies throttlePidCtrl, steerPidCtrl, trace
      ensures Snap() == old(Snap()).(throttle := Initial, steer := Initial)
      ensures brakePidCtrl.State() == old(brakePidCtrl.State()) && steerFilter.State() == old(steerFilter.State())
      ensures trace.calls == old(trace.calls) + [PidReset(Throttle), PidReset(Steer)]
    {
      throttlePidCtrl.Reset();
      steerPidCtrl.Reset();
    }
  }
}
