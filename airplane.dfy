/** Airplane: the larger of a fly speed and a drive speed; moves 1 tick, idles 3. */
module Airplanes {
  import opened DutyCycle
  import opened Formulas

  const MOVE_TIME: nat := 1
  const IDLE_TIME: nat := 3

  function FlySpeed(fm: FloatFormulas, weight: nat): nat
  {
    fm.airplaneFly(weight)
  }

  function DriveSpeed(fm: FloatFormulas, weight: nat): nat
  {
    fm.airplaneDrive(weight)
  }

  /** The maximum speed is one of the two component speeds, and at least each of them. */
  function MaxSpeed(fm: FloatFormulas, weight: nat): (r: nat)
    ensures r >= FlySpeed(fm, weight) && r >= DriveSpeed(fm, weight)
    ensures r == FlySpeed(fm, weight) || r == DriveSpeed(fm, weight)
  {
    var flying := FlySpeed(fm, weight);
    var driving := DriveSpeed(fm, weight);
    if flying > driving then flying else driving
  }

  /** From reset counters, 4 ticks reset the counters again and add the speed once. */
  lemma Cycle(odo: nat, speed: nat)
    ensures GuardedRun(MOVE_TIME, IDLE_TIME, 4, Clock(0, 0, odo), speed) == Clock(0, 0, odo + speed)
  {
    GuardedCycle(MOVE_TIME, IDLE_TIME, odo, speed);
  }

  /** From reset counters, every later state has moveTime <= 1, idleTime < 3, and idles only after moving. */
  lemma Reachable(n: nat, odo: nat, speed: nat)
    ensures var c := GuardedRun(MOVE_TIME, IDLE_TIME, n, Clock(0, 0, odo), speed);
      c.moveTime <= 1 && c.idleTime < 3 && (c.idleTime > 0 ==> c.moveTime == 1) && c.odo >= odo
  {
    GuardedRunInCycle(MOVE_TIME, IDLE_TIME, n, Clock(0, 0, odo), speed);
  }
}
