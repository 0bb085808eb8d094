/** UBoat: the larger of a clamped sail speed and a dive speed; moves 2 ticks, idles 4. */
module UBoats {
  import opened DutyCycle
  import opened Formulas

  const MOVE_TIME: nat := 2
  const IDLE_TIME: nat := 4
  /** The capacity and base parameters the UBoat constructor sets. */
  const CAPACITY: nat := 50
  const SAIL_BASE: nat := 550
  const DIVE_BASE: nat := 150

  /** The rounded sail formula clamped from below at 200. */
  function SailSpeed(fm: FloatFormulas, sailBase: nat, weight: nat): (r: nat)
    ensures r >= 200 && r >= fm.uboatSailRounded(sailBase, weight)
    ensures r == 200 || r == fm.uboatSailRounded(sailBase, weight)
  {
    var rounded := fm.uboatSailRounded(sailBase, weight);
    if rounded < 200 then 200 else rounded
  }

  function DiveSpeed(fm: FloatFormulas, diveBase: nat, weight: nat): nat
  {
    fm.uboatDive(diveBase, weight)
  }

  /** The maximum speed is one of the two component speeds, at least each of them, hence at least 200. */
  function MaxSpeed(fm: FloatFormulas, sailBase: nat, diveBase: nat, weight: nat): (r: nat)
    ensures r >= 200
    ensures r >= SailSpeed(fm, sailBase, weight) && r >= DiveSpeed(fm, diveBase, weight)
    ensures r == SailSpeed(fm, sailBase, weight) || r == DiveSpeed(fm, diveBase, weight)
  {
    if SailSpeed(fm, sailBase, weight) > DiveSpeed(fm, diveBase, weight)
    then SailSpeed(fm, sailBase, weight) else DiveSpeed(fm, diveBase, weight)
  }

  /** From reset counters, 6 ticks reset the counters again and add the speed twice. */
  lemma Cycle(odo: nat, speed: nat)
    ensures GuardedRun(MOVE_TIME, IDLE_TIME, 6, Clock(0, 0, odo), speed) == Clock(0, 0, odo + 2 * speed)
  {
    GuardedCycle(MOVE_TIME, IDLE_TIME, odo, speed);
  }

  /** From reset counters, every later state has moveTime <= 2, idleTime < 4, and idles only after moving. */
  lemma Reachable(n: nat, odo: nat, speed: nat)
    ensures var c := GuardedRun(MOVE_TIME, IDLE_TIME, n, Clock(0, 0, odo), speed);
      c.moveTime <= 2 && c.idleTime < 4 && (c.idleTime > 0 ==> c.moveTime == 2) && c.odo >= odo
  {
    GuardedRunInCycle(MOVE_TIME, IDLE_TIME, n, Clock(0, 0, odo), speed);
  }
}
