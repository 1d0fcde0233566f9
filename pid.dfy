/** The discrete PID controller the twist controller owns three of.

    Its source file (pid.py) is not part of this model. The step below follows
    the conventional clamped PID with anti-windup: the integral accrues error
    times the time step, the output is the weighted sum of the proportional,
    integral and derivative terms clamped to [mn, mx], and a clamped step gives
    back the integral it just accrued. This whole formula, not only the output
    bound, is an assumption about pid.py: `PID.Step` is proved to move the PID
    exactly as `StepOf` says, and the controller's results about the PIDs'
    next states rest on that. */
module PidControl {
  import opened Calls

  /** Gains and output bounds, fixed when a PID is constructed. */
  datatype Gains = Gains(kp: real, ki: real, kd: real, mn: real, mx: real)

  /** What a PID carries from one step to the next. */
  datatype PidState = PidState(errorIntegral: real, lastError: real)

  /** The state of a freshly constructed or freshly reset PID. */
  const Initial: PidState := PidState(0.0, 0.0)

  datatype StepResult = StepResult(output: real, next: PidState)

  /** The derivative term; a zero time step contributes no derivative. */
  function Derivative(s: PidState, error: real, dt: real): real
  {
    if dt == 0.0 then 0.0 else (error - s.lastError) / dt
  }

  /** One step of the PID on `error` over the time step `dt`. */
  function StepOf(g: Gains, s: PidState, error: real, dt: real): (r: StepResult)
    ensures g.mn <= g.mx ==> g.mn <= r.output <= g.mx
    ensures r.next.lastError == error
    ensures r.next.errorIntegral == s.errorIntegral || r.next.errorIntegral == s.errorIntegral + error * dt
    ensures g.mn < r.output < g.mx ==> r.next.errorIntegral == s.errorIntegral + error * dt
  {
    var integral := s.errorIntegral + error * dt;
    var raw := g.kp * error + g.ki * integral + g.kd * Derivative(s, error, dt);
    if raw > g.mx then StepResult(g.mx, PidState(s.errorIntegral, error))
    else if raw < g.mn then StepResult(g.mn, PidState(s.errorIntegral, error))
    else StepResult(raw, PidState(integral, error))
  }

  class PID {
    const kp: real
    const ki: real
    const kd: real
    const mn: real
    const mx: real
    var errorIntegral: real
    var lastError: real
    /** Which of the controller's PIDs this is, as its trace entries name it. */
    ghost const channel: Channel
    /** The record this PID appends its steps and resets to. */
    const trace: CallTrace

    function Settings(): Gains
    {
      Gains(kp, ki, kd, mn, mx)
    }

    function State(): PidState
      reads this
    {
      PidState(errorIntegral, lastError)
    }

    constructor (kp: real, ki: real, kd: real, mn: real, mx: real, ghost channel: Channel, trace: CallTrace)
      ensures Settings() == Gains(kp, ki, kd, mn, mx)
      ensures State() == Initial
      ensures this.channel == channel && this.trace == trace
    {
      this.kp, this.ki, this.kd := kp, ki, kd;
      this.mn, this.mx := mn, mx;
      errorIntegral, lastError := 0.0, 0.0;
      this.channel, this.trace := channel, trace;
    }

    /** Returns the PID to the state it was constructed in. */
    method Reset()
      modifies this, trace
      ensures State() == Initial
      ensures trace.calls == old(trace.calls) + [PidReset(channel)]
    {
      errorIntegral := 0.0;
      lastError := 0.0;
      trace.calls := trace.calls + [PidReset(channel)];
    }

    /** Steps the PID; the output bound is what the controller assumes of pid.py. */
    method Step(error: real, sampleTime: real) returns (r: real)
      modifies this, trace
      ensures StepResult(r, State()) == StepOf(Settings(), old(State()), error, sampleTime)
      ensures mn <= mx ==> mn <= r <= mx
      ensures trace.calls == old(trace.calls) + [PidStep(channel, error, sampleTime)]
    {
      var derivative := Derivative(State(), error, sampleTime);
      var accrued := errorIntegral;
      errorIntegral := errorIntegral + error * sampleTime;
      var raw := kp * error + ki * errorIntegral + kd * derivative;
      if raw > mx {
        r := mx;
        errorIntegral := accrued;
      } else if raw < mn {
        r := mn;
        errorIntegral := accrued;
      } else {
        r := raw;
      }
      lastError := error;
      trace.calls := trace.calls + [PidStep(channel, error, sampleTime)];
    }
  }
}
