/**
 * The periodic timer each plugin owns: whether it is delivering ticks and its
 * period in milliseconds. Ticks themselves are delivered by the host's event
 * loop and are modelled as calls of the plugin's tick method.
 */
module Timers {

  datatype Timer = Timer(active: bool, intervalMs: int)

  /** A timer as constructed: inactive, with a zero period. */
  const NewTimer := Timer(false, 0)

  /** `start(ms)`: (re)starts the timer with period `ms`. */
  function Started(ms: int): (t: Timer)
    ensures t.active && t.intervalMs == ms
  {
    Timer(true, ms)
  }

  /** `stop()`: no further ticks; the period is kept. */
  function Stopped(t: Timer): (r: Timer)
    ensures !r.active && r.intervalMs == t.intervalMs
  {
    t.(active := false)
  }

  /** `setInterval(ms)`: a new period; whether the timer runs is unchanged. */
  function Reinterval(t: Timer, ms: int): (r: Timer)
    ensures r.active == t.active && r.intervalMs == ms
  {
    t.(intervalMs := ms)
  }
}
