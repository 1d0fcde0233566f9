/** The first-order smoothing filter the twist controller runs its steering
    correction through.

    Its source file (lowpass.py) is not part of this model. The filter below
    follows the usual exponential smoothing: with weight a = ts / (tau + ts),
    the first sample passes through unchanged and every later one yields
    a * value + (1 - a) * last. This formula is an assumption about
    lowpass.py: `LowPassFilter.Filt` is proved to behave exactly as `FiltOf`
    says, and the controller's results about the filter rest on that. */
module LowPass {
  import opened Calls

  function Abs(x: real): real
  {
    if x < 0.0 then -x else x
  }

  /** The filter's memory: whether it has seen a sample, and the last output. */
  datatype FilterState = FilterState(ready: bool, lastValue: real)

  /** The state of a freshly constructed filter. */
  const Unprimed: FilterState := FilterState(false, 0.0)

  datatype FiltResult = FiltResult(output: real, next: FilterState)

  /** Time constant and sample period of a well-configured filter. */
  predicate ValidTiming(tau: real, ts: real)
  {
    tau > 0.0 && ts > 0.0
  }

  /** Weight of the new sample. */
  function Weight(tau: real, ts: real): (a: real)
    requires ValidTiming(tau, ts)
    ensures 0.0 < a < 1.0
  {
    ts / (tau + ts)
  }

  /** One call of the filter on `value`. */
  function FiltOf(tau: real, ts: real, s: FilterState, value: real): (r: FiltResult)
    requires ValidTiming(tau, ts)
    ensures r.next == FilterState(true, r.output)
    ensures !s.ready ==> r.output == value
    ensures s.ready ==> (value <= r.output <= s.lastValue || s.lastValue <= r.output <= value)
    ensures s.ready ==> Abs(r.output - value) <= Abs(s.lastValue - value)
    ensures s.ready && s.lastValue != value ==> Abs(r.output - value) < Abs(s.lastValue - value)
  {
    var a := Weight(tau, ts);
    if s.ready then
      var out := a * value + (1.0 - a) * s.lastValue;
      Contraction(a, value, s.lastValue);
      FiltResult(out, FilterState(true, out))
    else
      FiltResult(value, FilterState(true, value))
  }

  /** `a * x`, kept as one term so that facts about the product are not
      lost when the solver multiplies out `x`. */
  function Scale(a: real, x: real): real
  {
    a * x
  }

  /** Scaling an amount by a weight strictly between 0 and 1 keeps its sign
      and shrinks it. */
  lemma Shrinks(a: real, x: real)
    requires 0.0 < a < 1.0
    ensures x > 0.0 ==> 0.0 < Scale(a, x) < x
    ensures x < 0.0 ==> x < Scale(a, x) < 0.0
    ensures x == 0.0 ==> Scale(a, x) == 0.0
  {
    if x < 0.0 {
      assert 0.0 < a * -x < -x;
      assert Scale(a, x) == -(a * -x);
    }
  }

  /** A step of `p` from `last` towards `value` that does not overshoot. */
  lemma SteppedTowards(value: real, last: real, p: real)
    requires last < value ==> 0.0 < p < value - last
    requires value < last ==> value - last < p < 0.0
    requires value == last ==> p == 0.0
    ensures var out := last + p;
      (value <= out <= last || last <= out <= value) &&
      Abs(out - value) <= Abs(last - value) &&
      (last != value ==> Abs(out - value) < Abs(last - value))
  {
  }

  /** A weighted mean of `value` and `last` lies between them and strictly
      closer to `value` than `last` is. */
  lemma Contraction(a: real, value: real, last: real)
    requires 0.0 < a < 1.0
    ensures var out := a * value + (1.0 - a) * last;
      (value <= out <= last || last <= out <= value) &&
      Abs(out - value) <= Abs(last - value) &&
      (last != value ==> Abs(out - value) < Abs(last - value))
  {
    Shrinks(a, value - last);
    assert a * value + (1.0 - a) * last == last + Scale(a, value - last);
    SteppedTowards(value, last, Scale(a, value - last));
  }

  /** The filter's state after `n` calls on the constant input `x`. */
  function Repeat(tau: real, ts: real, s: FilterState, x: real, n: nat): FilterState
    requires ValidTiming(tau, ts)
  {
    if n == 0 then s else FiltOf(tau, ts, Repeat(tau, ts, s, x, n - 1), x).next
  }

  /** On a constant input the filter never recedes: once it has seen a sample,
      every further call leaves it no farther from the input. */
  lemma {:induction false} ConstantInputNeverRecedes(tau: real, ts: real, s: FilterState, x: real, m: nat, n: nat)
    requires ValidTiming(tau, ts)
    requires 1 <= m <= n
    ensures Repeat(tau, ts, s, x, n).ready
    ensures Abs(Repeat(tau, ts, s, x, n).lastValue - x) <= Abs(Repeat(tau, ts, s, x, m).lastValue - x)
  {
    if m < n {
      ConstantInputNeverRecedes(tau, ts, s, x, m, n - 1);
    }
  }

  class LowPassFilter {
    const tau: real
    const ts: real
    var ready: bool
    var lastValue: real
    /** The record this filter appends its calls to. */
    const trace: CallTrace

    predicate Valid()
    {
      ValidTiming(tau, ts)
    }

    function State(): FilterState
      reads this
    {
      FilterState(ready, lastValue)
    }

    constructor (tau: real, ts: real, trace: CallTrace)
      requires ValidTiming(tau, ts)
      ensures Valid() && this.tau == tau && this.ts == ts
      ensures State() == Unprimed && this.trace == trace
    {
      this.tau, this.ts, this.trace := tau, ts, trace;
      ready, lastValue := false, 0.0;
    }

    method Filt(value: real) returns (r: real)
      requires Valid()
      modifies this, trace
      ensures FiltResult(r, State()) == FiltOf(tau, ts, old(State()), value)
      ensures trace.calls == old(trace.calls) + [SteerFilt(value)]
    {
      var a := ts / (tau + ts);
      if ready {
        r := a * value + (1.0 - a) * lastValue;
      } else {
        ready := true;
        r := value;
      }
      lastValue := r;
      trace.calls := trace.calls + [SteerFilt(value)];
    }
  }
}
