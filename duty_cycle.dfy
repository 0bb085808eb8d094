/**
 * The move/idle duty cycle that Airplane, Boat, Boatplane, Motorcycle and UBoat
 * share word for word in their TravelByMachina: with limits M (move ticks) and
 * I (idle ticks), a tick moves while moveTime < M, and otherwise, when
 * moveTime == M and idleTime < I, idles, resetting both counters once the idle
 * count reaches I.
 */
module DutyCycle {

  /** The tick-relevant part of a vehicle: its two counters and its odometer. */
  datatype Clock = Clock(moveTime: nat, idleTime: nat, odo: nat)

  /**
   * One tick of the guarded duty cycle at the given speed: the odometer gains
   * the speed exactly on a move tick, and a vehicle outside the cycle's states
   * (moveTime past the limit, or idleTime at or past its limit) does not change;
   * an idle tick resets both counters exactly when it completes the idle phase.
   */
  function GuardedStep(moveLimit: nat, idleLimit: nat, c: Clock, speed: nat): (r: Clock)
    ensures r.odo == c.odo + (if c.moveTime < moveLimit then speed else 0)
    ensures c.moveTime > moveLimit || (c.moveTime == moveLimit && c.idleTime >= idleLimit) ==> r == c
    ensures c.moveTime == moveLimit && c.idleTime < idleLimit ==>
      (r.moveTime == 0 && r.idleTime == 0 <==> c.idleTime + 1 == idleLimit)
  {
    if c.moveTime < moveLimit then
      Clock(c.moveTime + 1, c.idleTime, c.odo + speed)
    else if c.moveTime == moveLimit && c.idleTime < idleLimit then
      if c.idleTime + 1 == idleLimit then Clock(0, 0, c.odo)
      else Clock(c.moveTime, c.idleTime + 1, c.odo)
    else
      c
  }

  /** `n` ticks of the guarded duty cycle, all at the same speed. */
  function GuardedRun(moveLimit: nat, idleLimit: nat, n: nat, c: Clock, speed: nat): Clock
    decreases n
  {
    if n == 0 then c
    else GuardedRun(moveLimit, idleLimit, n - 1, GuardedStep(moveLimit, idleLimit, c, speed), speed)
  }

  /**
   * The states a vehicle can be in when it started from reset counters: it
   * never moves more than M ticks, never idles I ticks without resetting, and
   * idles only after its move phase is complete.
   */
  ghost predicate InCycle(moveLimit: nat, idleLimit: nat, c: Clock)
  {
    c.moveTime <= moveLimit && c.idleTime < idleLimit && (c.idleTime > 0 ==> c.moveTime == moveLimit)
  }

  /** The odometer advances by the speed on a move tick and stays put on every other tick. */
  lemma GuardedStepOdometer(moveLimit: nat, idleLimit: nat, c: Clock, speed: nat)
    ensures GuardedStep(moveLimit, idleLimit, c, speed).odo
         == if c.moveTime < moveLimit then c.odo + speed else c.odo
  {
  }

  /** A tick keeps a vehicle inside its cycle. */
  lemma GuardedStepInCycle(moveLimit: nat, idleLimit: nat, c: Clock, speed: nat)
    requires 1 <= idleLimit && InCycle(moveLimit, idleLimit, c)
    ensures InCycle(moveLimit, idleLimit, GuardedStep(moveLimit, idleLimit, c, speed))
  {
  }

  /** Any number of ticks keeps a vehicle inside its cycle, and never winds its odometer back. */
  lemma {:induction false} GuardedRunInCycle(moveLimit: nat, idleLimit: nat, n: nat, c: Clock, speed: nat)
    requires 1 <= idleLimit && InCycle(moveLimit, idleLimit, c)
    ensures InCycle(moveLimit, idleLimit, GuardedRun(moveLimit, idleLimit, n, c, speed))
    ensures GuardedRun(moveLimit, idleLimit, n, c, speed).odo >= c.odo
    decreases n
  {
    if n > 0 {
      var c' := GuardedStep(moveLimit, idleLimit, c, speed);
      GuardedStepInCycle(moveLimit, idleLimit, c, speed);
      GuardedRunInCycle(moveLimit, idleLimit, n - 1, c', speed);
    }
  }

  /** Running `a` ticks and then `b` ticks is running `a + b` ticks. */
  lemma {:induction false} GuardedRunSplit(moveLimit: nat, idleLimit: nat, a: nat, b: nat, c: Clock, speed: nat)
    ensures GuardedRun(moveLimit, idleLimit, a + b, c, speed)
         == GuardedRun(moveLimit, idleLimit, b, GuardedRun(moveLimit, idleLimit, a, c, speed), speed)
    decreases a
  {
    if a > 0 {
      GuardedRunSplit(moveLimit, idleLimit, a - 1, b, GuardedStep(moveLimit, idleLimit, c, speed), speed);
    }
  }

  /** During the move phase every tick adds the speed to the odometer. */
  lemma {:induction false} GuardedMovePhase(moveLimit: nat, idleLimit: nat, k: nat, c: Clock, speed: nat)
    requires c.moveTime + k <= moveLimit
    ensures GuardedRun(moveLimit, idleLimit, k, c, speed)
         == Clock(c.moveTime + k, c.idleTime, c.odo + k * speed)
    decreases k
  {
    if k > 0 {
      var c' := GuardedStep(moveLimit, idleLimit, c, speed);
      GuardedMovePhase(moveLimit, idleLimit, k - 1, c', speed);
      assert c.odo + speed + (k - 1) * speed == c.odo + k * speed;
    }
  }

  /** During the idle phase, short of the idle limit, each tick only counts up the idle counter. */
  lemma {:induction false} GuardedIdlePhase(moveLimit: nat, idleLimit: nat, j: nat, c: Clock, speed: nat)
    requires c.moveTime == moveLimit && c.idleTime + j < idleLimit
    ensures GuardedRun(moveLimit, idleLimit, j, c, speed) == Clock(moveLimit, c.idleTime + j, c.odo)
    decreases j
  {
    if j > 0 {
      var c' := GuardedStep(moveLimit, idleLimit, c, speed);
      GuardedIdlePhase(moveLimit, idleLimit, j - 1, c', speed);
    }
  }

  /**
   * Duty-cycle periodicity: from reset counters, M + I ticks bring the counters
   * back to zero and add the speed to the odometer exactly M times.
   */
  lemma GuardedCycle(moveLimit: nat, idleLimit: nat, odo: nat, speed: nat)
    requires 1 <= idleLimit
    ensures GuardedRun(moveLimit, idleLimit, moveLimit + idleLimit, Clock(0, 0, odo), speed)
         == Clock(0, 0, odo + moveLimit * speed)
  {
    var start := Clock(0, 0, odo);
    var moved := Clock(moveLimit, 0, odo + moveLimit * speed);
    GuardedRunSplit(moveLimit, idleLimit, moveLimit, idleLimit, start, speed);
    GuardedMovePhase(moveLimit, idleLimit, moveLimit, start, speed);
    GuardedRunSplit(moveLimit, idleLimit, idleLimit - 1, 1, moved, speed);
    GuardedIdlePhase(moveLimit, idleLimit, idleLimit - 1, moved, speed);
  }

  /** `k` whole cycles from reset counters add the speed `k * M` times. */
  lemma {:induction false} GuardedCycles(moveLimit: nat, idleLimit: nat, k: nat, odo: nat, speed: nat)
    requires 1 <= idleLimit
    ensures GuardedRun(moveLimit, idleLimit, k * (moveLimit + idleLimit), Clock(0, 0, odo), speed)
         == Clock(0, 0, odo + k * (moveLimit * speed))
    decreases k
  {
    if k > 0 {
      var period := moveLimit + idleLimit;
      assert k * period == (k - 1) * period + period;
      GuardedRunSplit(moveLimit, idleLimit, (k - 1) * period, period, Clock(0, 0, odo), speed);
      GuardedCycles(moveLimit, idleLimit, k - 1, odo, speed);
      GuardedCycle(moveLimit, idleLimit, odo + (k - 1) * (moveLimit * speed), speed);
      assert odo + (k - 1) * (moveLimit * speed) + moveLimit * speed == odo + k * (moveLimit * speed);
    }
  }
}
