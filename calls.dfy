/** The calls the twist controller makes on its collaborators, and the shared
    record they are written to.

    Each PID and the steering filter holds a reference to one `CallTrace` and
    appends its own entry whenever one of its methods runs. The method's
    contract states that entry. The record is a proof device: it has only a
    ghost field, and the running controller keeps nothing in it. */
module Calls {

  datatype Channel = Throttle | Brake | Steer

  /** A call the controller makes on one of its collaborators. */
  datatype Call =
    | ClearIntegral(channel: Channel)
    | PidStep(channel: Channel, error: real, dt: real)
    | PidReset(channel: Channel)
    | SteerFilt(value: real)
    | GetSteering(targetLinearVelocity: real, targetAngularVelocity: real, currentLinearVelocity: real)

  /** The calls made so far, in order. */
  class CallTrace {
    ghost var calls: seq<Call>

    constructor ()
      ensures calls == []
    {
      calls := [];
    }
  }
}
