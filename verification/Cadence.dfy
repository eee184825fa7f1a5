/** worker.go: the one pause every worker and polling loop makes. Durations are nanoseconds. */
module Cadence {

  const SECOND: nat := 1_000_000_000

  /** The wait sleepCtx asks the clock for: one second when the request is not positive. */
  function Clamped(d: int): (p: nat)
    ensures p > 0
    ensures d > 0 ==> p == d
    ensures d <= 0 ==> p == 1_000_000_000
  {
    if d <= 0 then SECOND else d
  }
}
