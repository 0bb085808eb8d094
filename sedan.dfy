/**
 * Sedan: a weight-tiered drive speed that counts an attached trailer's weight,
 * and a duty cycle of 5 move ticks followed by 1 idle tick, or 2 with a
 * trailer. Unlike the other variants its idle branch has no `idleTime < limit`
 * guard and resets only when the idle count EQUALS the limit for the current
 * trailer state.
 */
module Sedans {
  import opened Wrappers
  import opened Passengers
  import opened DutyCycle

  const MOVE_TIME: nat := 5
  const IDLE_TIME: nat := 1
  const IDLE_TIME_TRAIL_ON: nat := 2
  /** The capacity the Sedan constructor sets. */
  const CAPACITY: nat := 4

  /** The weight the drive speed depends on: the passengers plus the trailer, if any. */
  function Load(passengersWeight: nat, trailer: Option<Trailer>): (r: nat)
    ensures trailer.None? ==> r == passengersWeight
    ensures trailer.Some? ==> r == passengersWeight + trailer.value.weight
  {
    if trailer.Some? then passengersWeight + trailer.value.weight else passengersWeight
  }

  /** The five speed tiers, each named by the load range that selects it. */
  function DriveSpeed(passengersWeight: nat, trailer: Option<Trailer>): (r: nat)
    ensures var load := Load(passengersWeight, trailer);
      && (r == 480 <==> load <= 80)
      && (r == 458 <==> 80 < load <= 160)
      && (r == 400 <==> 160 < load <= 260)
      && (r == 380 <==> 260 < load <= 350)
      && (r == 300 <==> 350 < load)
  {
    var totalWeight := Load(passengersWeight, trailer);
    if totalWeight <= 80 then 480
    else if totalWeight <= 160 then 458
    else if totalWeight <= 260 then 400
    else if totalWeight <= 350 then 380
    else 300
  }

  /** A sedan's maximum speed is its drive speed, always between 300 and 480. */
  function MaxSpeed(passengersWeight: nat, trailer: Option<Trailer>): (r: nat)
    ensures r == DriveSpeed(passengersWeight, trailer)
    ensures 300 <= r <= 480
  {
    DriveSpeed(passengersWeight, trailer)
  }

  /** A heavier load is never faster. */
  lemma DriveSpeedNonIncreasing(w1: nat, t1: Option<Trailer>, w2: nat, t2: Option<Trailer>)
    requires Load(w1, t1) <= Load(w2, t2)
    ensures DriveSpeed(w2, t2) <= DriveSpeed(w1, t1)
  {
  }

  /** The idle limit for the current trailer state. */
  function IdleLimit(trailerOn: bool): nat
  {
    if trailerOn then IDLE_TIME_TRAIL_ON else IDLE_TIME
  }

  /**
   * One tick of the sedan's duty cycle, the trailer state read at this tick.
   * The odometer gains the speed exactly on a move tick. At moveTime 5 every
   * tick idles, with no guard on the idle count, and the counters reset exactly
   * when the new idle count equals the limit for the current trailer state.
   */
  function Step(trailerOn: bool, c: Clock, speed: nat): (r: Clock)
    ensures r.odo == c.odo + (if c.moveTime < MOVE_TIME then speed else 0)
    ensures c.moveTime == MOVE_TIME ==>
      if c.idleTime + 1 == IdleLimit(trailerOn) then r == Clock(0, 0, c.odo)
      else r == Clock(MOVE_TIME, c.idleTime + 1, c.odo)
    ensures c.moveTime > MOVE_TIME ==> r == c
  {
    if c.moveTime < MOVE_TIME then
      Clock(c.moveTime + 1, c.idleTime, c.odo + speed)
    else if c.moveTime == MOVE_TIME then
      var idle := c.idleTime + 1;
      if idle == IdleLimit(trailerOn) then Clock(0, 0, c.odo) else Clock(c.moveTime, idle, c.odo)
    else
      c
  }

  /** `n` ticks at the same speed with the trailer state held fixed. */
  function Run(trailerOn: bool, n: nat, c: Clock, speed: nat): Clock
    decreases n
  {
    if n == 0 then c else Run(trailerOn, n - 1, Step(trailerOn, c, speed), speed)
  }

  /** The odometer advances by the speed on a move tick and stays put on every other tick. */
  lemma StepOdometer(trailerOn: bool, c: Clock, speed: nat)
    ensures Step(trailerOn, c, speed).odo == if c.moveTime < MOVE_TIME then c.odo + speed else c.odo
  {
  }

  /** Inside its cycle the missing idle guard makes no difference: the sedan steps like a guarded vehicle. */
  lemma StepAgreesInCycle(trailerOn: bool, c: Clock, speed: nat)
    requires InCycle(MOVE_TIME, IdleLimit(trailerOn), c)
    ensures Step(trailerOn, c, speed) == GuardedStep(MOVE_TIME, IdleLimit(trailerOn), c, speed)
  {
  }

  /** With the trailer state fixed and starting inside the cycle, the sedan runs like a guarded vehicle. */
  lemma {:induction false} RunAgreesInCycle(trailerOn: bool, n: nat, c: Clock, speed: nat)
    requires InCycle(MOVE_TIME, IdleLimit(trailerOn), c)
    ensures Run(trailerOn, n, c, speed) == GuardedRun(MOVE_TIME, IdleLimit(trailerOn), n, c, speed)
    decreases n
  {
    if n > 0 {
      StepAgreesInCycle(trailerOn, c, speed);
      GuardedStepInCycle(MOVE_TIME, IdleLimit(trailerOn), c, speed);
      RunAgreesInCycle(trailerOn, n - 1, Step(trailerOn, c, speed), speed);
    }
  }

  /**
   * From reset counters with the trailer state fixed, 6 ticks (7 with a
   * trailer) reset the counters again and add the speed five times.
   */
  lemma Cycle(trailerOn: bool, odo: nat, speed: nat)
    ensures Run(trailerOn, if trailerOn then 7 else 6, Clock(0, 0, odo), speed) == Clock(0, 0, odo + 5 * speed)
  {
    RunAgreesInCycle(trailerOn, MOVE_TIME + IdleLimit(trailerOn), Clock(0, 0, odo), speed);
    GuardedCycle(MOVE_TIME, IdleLimit(trailerOn), odo, speed);
  }

  /** From reset counters with the trailer state fixed, the sedan stays inside its cycle. */
  lemma Reachable(trailerOn: bool, n: nat, odo: nat, speed: nat)
    ensures var c := Run(trailerOn, n, Clock(0, 0, odo), speed);
      c.moveTime <= 5 && c.idleTime < IdleLimit(trailerOn) && (c.idleTime > 0 ==> c.moveTime == 5) && c.odo >= odo
  {
    RunAgreesInCycle(trailerOn, n, Clock(0, 0, odo), speed);
    GuardedRunInCycle(MOVE_TIME, IdleLimit(trailerOn), n, Clock(0, 0, odo), speed);
  }

  /**
   * Without a trailer, a sedan that already idled at least once keeps idling:
   * the idle count only grows past 1, never equals IDLE_TIME again, and the
   * odometer never moves.
   */
  lemma {:induction false} IdlesForeverWithoutTrailer(n: nat, idle: nat, odo: nat, speed: nat)
    requires idle >= 1
    ensures Run(false, n, Clock(MOVE_TIME, idle, odo), speed) == Clock(MOVE_TIME, idle + n, odo)
    decreases n
  {
    if n > 0 {
      IdlesForeverWithoutTrailer(n - 1, idle + 1, odo, speed);
    }
  }

  /**
   * The trailer is removed after exactly one idle tick of a trailer cycle (6
   * ticks from reset): from then on the sedan never moves again.
   */
  lemma TrailerRemovedAfterOneIdleTick(n: nat, odo: nat, speed: nat)
    ensures Run(true, 6, Clock(0, 0, odo), speed) == Clock(MOVE_TIME, 1, odo + 5 * speed)
    ensures Run(false, n, Run(true, 6, Clock(0, 0, odo), speed), speed) == Clock(MOVE_TIME, 1 + n, odo + 5 * speed)
  {
    var start := Clock(0, 0, odo);
    RunAgreesInCycle(true, 6, start, speed);
    GuardedRunSplit(MOVE_TIME, IDLE_TIME_TRAIL_ON, 5, 1, start, speed);
    GuardedMovePhase(MOVE_TIME, IDLE_TIME_TRAIL_ON, 5, start, speed);
    IdlesForeverWithoutTrailer(n, 1, odo + 5 * speed, speed);
  }
}
