/** Boat: a linear sail speed with a floor of 20; moves 2 ticks, idles 1. */
module Boats {
  import opened DutyCycle

  const MOVE_TIME: nat := 2
  const IDLE_TIME: nat := 1

  /** Sail speed max(800 - 10 w, 20): linear down to weight 78, then the floor of 20. */
  function SailSpeed(weight: nat): (r: nat)
    ensures r >= 20
    ensures weight <= 78 ==> r == 800 - 10 * weight
    ensures weight >= 78 ==> r == 20
  {
    var raw := 800 - 10 * weight;
    if raw < 20 then 20 else raw
  }

  /** A boat's maximum speed is its sail speed. */
  function MaxSpeed(weight: nat): (r: nat)
    ensures r == SailSpeed(weight)
  {
    SailSpeed(weight)
  }

  /** Heavier boats are never faster. */
  lemma SailSpeedNonIncreasing(w1: nat, w2: nat)
    requires w1 <= w2
    ensures SailSpeed(w2) <= SailSpeed(w1)
  {
  }

  /** From reset counters, 3 ticks reset the counters again and add the speed twice. */
  lemma Cycle(odo: nat, speed: nat)
    ensures GuardedRun(MOVE_TIME, IDLE_TIME, 3, Clock(0, 0, odo), speed) == Clock(0, 0, odo + 2 * speed)
  {
    GuardedCycle(MOVE_TIME, IDLE_TIME, odo, speed);
  }

  /** From reset counters, every later state has moveTime <= 2 and idleTime == 0. */
  lemma Reachable(n: nat, odo: nat, speed: nat)
    ensures var c := GuardedRun(MOVE_TIME, IDLE_TIME, n, Clock(0, 0, odo), speed);
      c.moveTime <= 2 && c.idleTime < 1 && c.odo >= odo
  {
    GuardedRunInCycle(MOVE_TIME, IDLE_TIME, n, Clock(0, 0, odo), speed);
  }

  /** An empty boat (sail speed 800) ticked 12 times from new has travelled 6400. */
  lemma EmptyBoatTwelveTicks()
    ensures GuardedRun(MOVE_TIME, IDLE_TIME, 12, Clock(0, 0, 0), MaxSpeed(0)) == Clock(0, 0, 6400)
  {
    var speed := MaxSpeed(0);
    assert speed == 800;
    GuardedCycles(MOVE_TIME, IDLE_TIME, 4, 0, speed);
    assert 4 * (MOVE_TIME + IDLE_TIME) == 12 && 4 * (MOVE_TIME * speed) == 6400;
  }
}
