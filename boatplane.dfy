/** Boatplane: the larger of a fly speed and a clamped sail speed; moves 1 tick, idles 3. */
module Boatplanes {
  import opened DutyCycle
  import opened Formulas

  const MOVE_TIME: nat := 1
  const IDLE_TIME: nat := 3
  /** The base parameters the Boatplane constructor gives its flying and sailing capabilities. */
  const FLY_BASE: nat := 500
  const SAIL_BASE: nat := 800

  function FlySpeed(fm: FloatFormulas, flyBase: nat, weight: nat): nat
  {
    fm.boatplaneFly(flyBase, weight)
  }

  /** The rounded sail formula clamped from below at 20. */
  function SailSpeed(fm: FloatFormulas, sailBase: nat, weight: nat): (r: nat)
    ensures r >= 20 && r >= fm.boatplaneSailRounded(sailBase, weight)
    ensures r == 20 || r == fm.boatplaneSailRounded(sailBase, weight)
  {
    var rounded := fm.boatplaneSailRounded(sailBase, weight);
    if rounded < 20 then 20 else rounded
  }

  /** The maximum speed is one of the two component speeds, at least each of them, hence at least 20. */
  function MaxSpeed(fm: FloatFormulas, flyBase: nat, sailBase: nat, weight: nat): (r: nat)
    ensures r >= 20
    ensures r >= FlySpeed(fm, flyBase, weight) && r >= SailSpeed(fm, sailBase, weight)
    ensures r == FlySpeed(fm, flyBase, weight) || r == SailSpeed(fm, sailBase, weight)
  {
    var flying := FlySpeed(fm, flyBase, weight);
    var sailing := SailSpeed(fm, sailBase, weight);
    if flying > sailing then flying else sailing
  }

  /** From reset counters, 4 ticks reset the counters again and add the speed once. */
  lemma Cycle(odo: nat, speed: nat)
    ensures GuardedRun(MOVE_TIME, IDLE_TIME, 4, Clock(0, 0, odo), speed) == Clock(0, 0, odo + speed)
  {
    GuardedCycle(MOVE_TIME, IDLE_TIME, odo, speed);
  }

  /** From reset counters, every later state has moveTime <= 1, idleTime < 3, and idles only after moving. */
  lemma Reachable(n: nat, odo: nat, speed: nat)
    ensures var c := GuardedRun(MOVE_TIME, IDLE_TIME, n, Clock(0, 0, odo), speed);
      c.moveTime <= 1 && c.idleTime < 3 && (c.idleTime > 0 ==> c.moveTime == 1) && c.odo >= odo
  {
    GuardedRunInCycle(MOVE_TIME, IDLE_TIME, n, Clock(0, 0, odo), speed);
  }
}
