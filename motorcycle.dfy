/** Motorcycle: a polynomial drive speed clamped at zero; moves 5 ticks, idles 1. */
module Motorcycles {
  import opened DutyCycle
  import opened Formulas

  const MOVE_TIME: nat := 5
  const IDLE_TIME: nat := 1
  /** The capacity and base drive parameter the Motorcycle constructor sets. */
  const CAPACITY: nat := 2
  const DRIVE_BASE: nat := 400

  /**
   * The drive formula plus one half, clamped at 0.0 before the conversion to
   * unsigned, so the result is the truncation of a non-negative value and can
   * never wrap around.
   */
  function DriveSpeed(fm: FloatFormulas, driveBase: nat, weight: nat): (r: nat)
    ensures var shifted := fm.motorcycleRaw(driveBase, weight) + 0.5;
      var clamped := if shifted > 0.0 then shifted else 0.0;
      r as real <= clamped < r as real + 1.0
  {
    var shifted := fm.motorcycleRaw(driveBase, weight) + 0.5;
    if shifted > 0.0 then shifted.Floor else 0
  }

  /** A motorcycle's maximum speed is its drive speed. */
  function MaxSpeed(fm: FloatFormulas, driveBase: nat, weight: nat): (r: nat)
    ensures r == DriveSpeed(fm, driveBase, weight)
  {
    DriveSpeed(fm, driveBase, weight)
  }

  /** From reset counters, 6 ticks reset the counters again and add the speed five times. */
  lemma Cycle(odo: nat, speed: nat)
    ensures GuardedRun(MOVE_TIME, IDLE_TIME, 6, Clock(0, 0, odo), speed) == Clock(0, 0, odo + 5 * speed)
  {
    GuardedCycle(MOVE_TIME, IDLE_TIME, odo, speed);
  }

  /** From reset counters, every later state has moveTime <= 5 and idleTime == 0. */
  lemma Reachable(n: nat, odo: nat, speed: nat)
    ensures var c := GuardedRun(MOVE_TIME, IDLE_TIME, n, Clock(0, 0, odo), speed);
      c.moveTime <= 5 && c.idleTime < 1 && c.odo >= odo
  {
    GuardedRunInCycle(MOVE_TIME, IDLE_TIME, n, Clock(0, 0, odo), speed);
  }
}
