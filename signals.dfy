/** The signal protocol: how a registered action ends.

    An action is a JavaScript closure whose effect on the run is only how it
    ends: it returns normally, or it throws. A test reports its verdict by
    throwing one of two signals, `TestPass` (from `pass()`) or
    `TestFailError` (from `fail(reason)`); anything else it throws is an
    unexpected error. The model describes an action by that outcome alone. */
module Signals {

  datatype Option<+T> = None | Some(value: T)

  /** The `message` every `TestPass` signal carries. */
  const TestPassMessage: string := "The test passed successfully"

  /** How one invocation of an action ends. */
  datatype Behaviour =
    | Returns                                // completes without throwing
    | ThrowsPass                             // throws a `TestPass`
    | ThrowsFail(reason: string)             // throws a `TestFailError`
    | ThrowsOther(message: Option<string>)   // throws anything else; a value
                                             // without a `message` property
                                             // has no message
  {
    predicate Throws() { !Returns? }
  }

  /** The `message` field of what a throwing action threw. */
  function ThrownMessage(b: Behaviour): Option<string>
    requires b.Throws()
  {
    match b
    case ThrowsPass => Some(TestPassMessage)
    case ThrowsFail(reason) => Some(reason)
    case ThrowsOther(message) => message
  }

  /** `pass()`: ends the calling action by throwing the pass signal. */
  function Pass(): (b: Behaviour)
    ensures b.ThrowsPass? && ThrownMessage(b) == Some(TestPassMessage)
  {
    ThrowsPass
  }

  /** `fail(reason)`: ends the calling action by throwing a `TestFailError`
      whose message is `reason`. */
  function Fail(reason: string): (b: Behaviour)
    ensures b.Throws() && ThrownMessage(b) == Some(reason)
    ensures b != Pass()
  {
    ThrowsFail(reason)
  }
}
