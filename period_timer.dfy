/** A timer that reports, when asked, whether its period has passed since it
    last reported so, and restarts itself when it has. */
module PeriodicTimer {
  import opened Clock

  class PeriodTimer {
    const period: int
    var lastTickTime: int

    /** A timer of `msPeriod` milliseconds, started at `now`. */
    constructor (msPeriod: int, now: int)
      ensures period == msPeriod && lastTickTime == now
    {
      period := msPeriod;
      lastTickTime := now;
    }

    /** The check made at `now`: one step of the timer's gate. */
    method Check(now: int) returns (result: bool)
      modifies this
      ensures (lastTickTime, result) == GateStep(old(lastTickTime), period, now)
    {
      result := false;
      if now - lastTickTime > period {
        result := true;
        lastTickTime := now;
      }
    }
  }
}
