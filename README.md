# Twist controller — a Dafny model

This project models the per-tick control core of a drive-by-wire vehicle
controller: the `TwistController` class of
`ros/src/twist_controller/twist_controller.py`. It owns three PID controllers
(throttle, brake, steer) and a low-pass filter for the steering correction.
It also takes an injected yaw controller that gives a feed-forward steering
angle. Each call of `control` turns the target and current velocities and
the cross-track error into a command: a throttle or a brake value (never both,
never neither) and a steering angle. `reset` returns two of the three PIDs to
their initial state.

Four modules:

- `Calls` (`calls.dfy`): the calls the controller makes on its collaborators
  (`Call`) and `CallTrace`, a shared record with one ghost field to which the
  PIDs and the filter append their own calls.
- `PidControl` (`pid.dfy`): the PID as a value (`Gains`, `PidState`, the step
  function `StepOf`) and as the class `PID` whose `Step` and `Reset` methods
  update `errorIntegral` and `lastError` in place.
- `LowPass` (`lowpass.dfy`): the smoothing filter as a value (`FilterState`,
  `FiltOf`) and as the class `LowPassFilter` with its `Filt` method.
- `TwistControl` (`twist_controller.dfy`): one call of `control` as the
  function `Tick`, which gives the returned command, the new states of the
  PIDs and the filter, and the calls made on them in order (`CallLog`). The
  class `TwistController` holds the four collaborator objects, their shared
  trace and the construction parameters. Its `Control` method (split into
  `Drive` and `Steering`, as the source's body falls into those two blocks)
  and its `Reset` method are proved to do what `Tick` and the reset
  description say. `Run` is a sequence of ticks.

Every `PID.Step`, `PID.Reset` and `LowPassFilter.Filt` appends its own entry
to the trace, and its contract states that entry. So the order and number of
steps and resets in the trace follow from what `Control` actually calls. An
extra or missing call would break `Control`'s contract. Two entries are
written by `Control` itself, because no method is called for them: the
integral clear, a direct field write, and the yaw controller's
`get_steering`, a function value in this model.

`pid.py` and `lowpass.py` are not part of this model. `StepOf` and `FiltOf`
are stand-ins for them: a conventional clamped PID with anti-windup, and
first-order smoothing with weight `ts / (tau + ts)` where the first sample
passes through. `PID.Step` and `LowPassFilter.Filt` are proved to behave
exactly as these functions say. So every result below that mentions a PID's
or the filter's next state, or the value the filter outputs, is a result
about the stand-ins and an assumption about the unseen files. "## Left out"
lists which results these are. The output bound `[mn, mx]` is part of the
same assumption. The fact that brake is always at least 0.1 rests on it. The yaw controller is a total function
`(real, real, real) -> real` supplied at construction. Nothing is known of
it beyond that. All numbers are `real`.

## Model

| member | source | states |
|---|---|---|
| TwistControl.TwistController.constructor | ros/src/twist_controller/twist_controller.py:12-21 | keeps the yaw controller, max steer angle and sample rate; builds three distinct fresh PIDs with throttle gains (0.2, 0.005, 0.1) in [0, 1], brake gains (100, 0.001, 0.1) in [0.1, 2000], steer gains (0.7, 0.004, 0.3) in [-max_steer_angle, max_steer_angle], and a filter with tau 1.5 and ts 1.0; every PID starts at zero integral and zero last error, the filter not ready |
| TwistControl.Tick | ros/src/twist_controller/twist_controller.py:25-56 | exactly one of throttle and brake is present; throttle is present iff the throttle PID's step output is positive, and then equals it and lies in (0, 1]; when target minus current speed is below -1.0 an accelerating tick leaves the throttle integral at zero or at this one step's error times the sample rate (the integral restarts from zero), and otherwise keeps it or adds this step's error; brake equals the brake PID's step output on the negated speed error and lies in [0.1, 2000]; accelerating leaves the brake PID reset, braking leaves the throttle PID reset; steer is the feed-forward angle plus the filtered steer PID output on cte; if the filter starts within ±max_steer_angle, the filtered part of steer stays within it |
| TwistControl.ClearPrecedesThrottleStep | ros/src/twist_controller/twist_controller.py:28-34 | when the speed error is below -1.0 the first call clears the throttle integral and the very next one is the throttle step; otherwise the first call is the throttle step and no clear happens |
| TwistControl.StepsPerChannel | ros/src/twist_controller/twist_controller.py:34-45 | each tick steps the throttle and steer PIDs exactly once, and the brake PID exactly once when braking and never when accelerating |
| TwistControl.ResetsPerBranch | ros/src/twist_controller/twist_controller.py:37-42 | accelerating resets the brake PID and not the throttle PID; braking resets the throttle PID after its step, does not reset the brake PID, and steps the brake PID on -linear_cte |
| TwistControl.StepsUseSampleRate | ros/src/twist_controller/twist_controller.py:34-45 | every PID step of a tick has the sample rate as its time argument |
| TwistControl.StepCountOfThree | ros/src/twist_controller/twist_controller.py:34-45 | the step count of a one-, two- or three-call log is the sum of its calls' counts (used to count steps per tick) |
| TwistControl.StepCountAppend | ros/src/twist_controller/twist_controller.py:34-45 | the number of steps a call log makes on a channel is additive over concatenation (used to count steps per tick) |
| TwistControl.Run | ros/src/twist_controller/twist_controller.py:25-56 | repeated calls of control return one command per call, each carrying exactly one of throttle and brake |
| TwistControl.RunWithinBounds | ros/src/twist_controller/twist_controller.py:16-17 | over any sequence of ticks every throttle lies in (0, 1] and every brake in [0.1, 2000] |
| TwistControl.RunSteerFeedbackBounded | ros/src/twist_controller/twist_controller.py:18 | starting from a filter within ±max_steer_angle (a fresh one is), the filtered feedback part of every steering command stays within ±max_steer_angle |
| TwistControl.TwistController.Drive | ros/src/twist_controller/twist_controller.py:30-42 | the optional integral clear, the throttle step and the branch: accelerating returns the throttle step's output with no brake and leaves the brake PID reset; otherwise no throttle, the brake step's output on the negated speed error, and the throttle PID reset; the trace gains the clear (if any) followed by the branch's calls, which the PIDs append themselves |
| TwistControl.TwistController.Steering | ros/src/twist_controller/twist_controller.py:44-46 | returns the filtered steer PID output on cte and leaves the steer PID and the filter in the states the step and the filter give; the trace gains the steer step then the filter call on the raw output, appended by the PID and the filter |
| TwistControl.TwistController.Control | ros/src/twist_controller/twist_controller.py:25-56 | the returned command, the new states of the three PIDs and the filter, and the calls appended to the trace are exactly those of `Tick` on the old states |
| TwistControl.TwistController.Reset | ros/src/twist_controller/twist_controller.py:58-60 | the throttle and steer PIDs return to their initial state; the brake PID and the filter keep theirs; the trace gains exactly the two resets, in that order |
| PidControl.StepOf | ros/src/twist_controller/twist_controller.py:34 | a step's output lies in [mn, mx] whenever mn <= mx; the new last error is the step's error; the integral either stays or accrues error × dt, and accrues whenever the output is strictly inside the bounds |
| PidControl.PID.constructor | ros/src/twist_controller/twist_controller.py:16-18 | gains and bounds are those given; integral and last error start at zero; the PID writes to the given trace under the given channel |
| PidControl.PID.Step | ros/src/twist_controller/twist_controller.py:34 | output and new state are those of `StepOf` on the old state; output within [mn, mx] when mn <= mx (an assumption about pid.py); the trace gains exactly this step, with its error and time step |
| PidControl.PID.Reset | ros/src/twist_controller/twist_controller.py:38 | the PID returns to its freshly constructed state; the trace gains exactly this reset |
| LowPass.FiltOf | ros/src/twist_controller/twist_controller.py:46 | the first sample passes through unchanged; afterwards the output lies between the input and the last value and is no farther from the input (strictly closer unless they are equal); the filter is ready and remembers its output |
| LowPass.Contraction | ros/src/twist_controller/twist_controller.py:46 | a weighted mean with weight strictly between 0 and 1 lies between its two points and strictly closer to the first |
| LowPass.ConstantInputNeverRecedes | ros/src/twist_controller/twist_controller.py:46 | on a constant input, after the first call the filter's distance to the input never grows with further calls |
| LowPass.LowPassFilter.constructor | ros/src/twist_controller/twist_controller.py:21 | keeps tau and ts and the given trace; the filter starts not ready |
| LowPass.LowPassFilter.Filt | ros/src/twist_controller/twist_controller.py:46 | output and new state are those of `FiltOf` on the old state; the trace gains exactly this call, with its input |

## Left out

- The diagnostics logger (`TwistControllerLogger` at twist_controller.py:5, its construction at line 23, the `log` call at lines 51-52) is left out. It only receives telemetry and never affects the returned command.
- `pid.py`, `lowpass.py` and the yaw controller are not part of this model. The PID and filter bodies are stand-ins, and only their contracts are used by the controller. The yaw controller is an arbitrary total function supplied at construction.
- PidControl.StepOf: the whole step formula is a stand-in for pid.py, not only the output bound. That covers the integral accrual, its reversion on a clamped output, the derivative and the new last error. These results rest on it: Tick's next-state clauses for the three PIDs and its fast-brake integral clauses; `Control`'s state clause (`Snap() == t.next`); the brake's lower bound 0.1.
- LowPass.FiltOf: the weighted-mean formula, and passing the first sample through, are stand-ins for lowpass.py. These results rest on it: Tick's steer value and next filter state; its steer-feedback bound; `RunSteerFeedbackBounded`; `ConstantInputNeverRecedes`; `Control`'s state clause for the filter.
- PidControl.PID.Step: the bound on its output is an assumption about `pid.py`. It is proved only of the stand-in body, and only when mn <= mx.
- PidControl.PID.constructor: it does not reject mn > mx. The source does no such check either, so the steer PID's bound holds only when max_steer_angle >= 0.
- LowPass.LowPassFilter.constructor: requires tau > 0 and ts > 0. The only caller passes 1.5 and 1.0.
- Floating-point rounding, NaN and infinities are not modelled. All arithmetic is on `real`.
- The unused constants `GAS_DENSITY` and `ONE_MPH`, the `datetime` import and the commented-out alternative steer gains (twist_controller.py:1, 7-8, 19) are left out.
- No lemma fixes a concrete input and states the command it yields. That command depends on the PID internals, which pid.py defines and this model does not have.
- ROS scheduling, message transport and any concurrency around calls to `control` are left out.
- The `CallTrace` record is a proof device of the model. The source keeps no such record. The PID and filter constructors take it as an extra argument, and the PID also takes a ghost channel name.
