/**
 * The vehicle base: a capacity-bounded ordered passenger manifest with a
 * cached total weight, an odometer and the move/idle tick counters. The six
 * variants form a closed set, so a vehicle carries its variant as a `Kind`
 * (with the base parameters of its capabilities) and speed and ticking
 * dispatch on it.
 */
module Vehicles {
  import opened Wrappers
  import opened Passengers
  import opened DutyCycle
  import opened Formulas
  import Airplanes
  import Boats
  import Boatplanes
  import Motorcycles
  import Sedans
  import UBoats

  datatype Kind =
    | Airplane
    | Boat
    | Boatplane(flyBase: nat, sailBase: nat)
    | Motorcycle(driveBase: nat)
    | Sedan
    | UBoat(sailBase: nat, diveBase: nat)

  /** The current maximum speed of a vehicle of each kind, with the floors the variants guarantee. */
  function MaxSpeedOf(kind: Kind, weight: nat, trailer: Option<Trailer>, fm: FloatFormulas): (r: nat)
    ensures kind.Boat? || kind.Boatplane? ==> r >= 20
    ensures kind.UBoat? ==> r >= 200
    ensures kind.Sedan? ==> 300 <= r <= 480
  {
    match kind
    case Airplane => Airplanes.MaxSpeed(fm, weight)
    case Boat => Boats.MaxSpeed(weight)
    case Boatplane(flyBase, sailBase) => Boatplanes.MaxSpeed(fm, flyBase, sailBase, weight)
    case Motorcycle(driveBase) => Motorcycles.MaxSpeed(fm, driveBase, weight)
    case Sedan => Sedans.MaxSpeed(weight, trailer)
    case UBoat(sailBase, diveBase) => UBoats.MaxSpeed(fm, sailBase, diveBase, weight)
  }

  function MoveLimit(kind: Kind): nat
  {
    match kind
    case Airplane => Airplanes.MOVE_TIME
    case Boat => Boats.MOVE_TIME
    case Boatplane(_, _) => Boatplanes.MOVE_TIME
    case Motorcycle(_) => Motorcycles.MOVE_TIME
    case Sedan => Sedans.MOVE_TIME
    case UBoat(_, _) => UBoats.MOVE_TIME
  }

  /** The idle limit; only a sedan's depends on whether a trailer is attached. */
  function IdleLimit(kind: Kind, trailerOn: bool): (r: nat)
    ensures r >= 1
  {
    match kind
    case Airplane => Airplanes.IDLE_TIME
    case Boat => Boats.IDLE_TIME
    case Boatplane(_, _) => Boatplanes.IDLE_TIME
    case Motorcycle(_) => Motorcycles.IDLE_TIME
    case Sedan => Sedans.IdleLimit(trailerOn)
    case UBoat(_, _) => UBoats.IDLE_TIME
  }

  /** One tick of a vehicle of the given kind: the sedan's own rule, or the shared guarded cycle. */
  function StepOf(kind: Kind, trailerOn: bool, c: Clock, speed: nat): (r: Clock)
    ensures r.odo == if c.moveTime < MoveLimit(kind) then c.odo + speed else c.odo
  {
    if kind.Sedan? then Sedans.Step(trailerOn, c, speed)
    else GuardedStep(MoveLimit(kind), IdleLimit(kind, trailerOn), c, speed)
  }

  /** `n` ticks of a vehicle whose speed and trailer state do not change meanwhile. */
  function RunOf(kind: Kind, trailerOn: bool, n: nat, c: Clock, speed: nat): Clock
    decreases n
  {
    if n == 0 then c else RunOf(kind, trailerOn, n - 1, StepOf(kind, trailerOn, c, speed), speed)
  }

  lemma {:induction false} RunOfGuarded(kind: Kind, trailerOn: bool, n: nat, c: Clock, speed: nat)
    requires !kind.Sedan?
    ensures RunOf(kind, trailerOn, n, c, speed) == GuardedRun(MoveLimit(kind), IdleLimit(kind, trailerOn), n, c, speed)
    decreases n
  {
    if n > 0 {
      RunOfGuarded(kind, trailerOn, n - 1, StepOf(kind, trailerOn, c, speed), speed);
    }
  }

  lemma {:induction false} RunOfSedan(trailerOn: bool, n: nat, c: Clock, speed: nat)
    ensures RunOf(Sedan, trailerOn, n, c, speed) == Sedans.Run(trailerOn, n, c, speed)
    decreases n
  {
    if n > 0 {
      RunOfSedan(trailerOn, n - 1, StepOf(Sedan, trailerOn, c, speed), speed);
    }
  }

  /**
   * Duty-cycle periodicity for every kind: from reset counters, MOVE_TIME +
   * IDLE_TIME ticks bring the counters back to zero and add the speed exactly
   * MOVE_TIME times; no state reached on the way leaves the cycle.
   */
  lemma DutyCyclePeriod(kind: Kind, trailerOn: bool, odo: nat, speed: nat)
    ensures RunOf(kind, trailerOn, MoveLimit(kind) + IdleLimit(kind, trailerOn), Clock(0, 0, odo), speed)
         == Clock(0, 0, odo + MoveLimit(kind) * speed)
  {
    var period := MoveLimit(kind) + IdleLimit(kind, trailerOn);
    if kind.Sedan? {
      RunOfSedan(trailerOn, period, Clock(0, 0, odo), speed);
      Sedans.Cycle(trailerOn, odo, speed);
    } else {
      RunOfGuarded(kind, trailerOn, period, Clock(0, 0, odo), speed);
      GuardedCycle(MoveLimit(kind), IdleLimit(kind, trailerOn), odo, speed);
    }
  }

  /** From reset counters with speed and trailer state fixed, every kind stays inside its cycle. */
  lemma ReachableInCycle(kind: Kind, trailerOn: bool, n: nat, odo: nat, speed: nat)
    ensures InCycle(MoveLimit(kind), IdleLimit(kind, trailerOn), RunOf(kind, trailerOn, n, Clock(0, 0, odo), speed))
  {
    if kind.Sedan? {
      RunOfSedan(trailerOn, n, Clock(0, 0, odo), speed);
      Sedans.Reachable(trailerOn, n, odo, speed);
    } else {
      RunOfGuarded(kind, trailerOn, n, Clock(0, 0, odo), speed);
      GuardedRunInCycle(MoveLimit(kind), IdleLimit(kind, trailerOn), n, Clock(0, 0, odo), speed);
    }
  }

  class Vehicle {
    const kind: Kind
    const maxPassengers: nat
    var passengers: seq<Passenger>
    /** The cached total passenger weight. */
    var weight: nat
    var odo: nat
    var idleTime: nat
    var moveTime: nat
    /** A sedan's optional trailer; every other kind has none. */
    var trailer: Option<Trailer>

    /** The manifest fits the capacity and the cache holds the manifest's total weight. */
    ghost predicate Valid()
      reads this
    {
      |passengers| <= maxPassengers && weight == TotalWeight(passengers) && (trailer.Some? ==> kind.Sedan?)
    }

    /** The state of a new vehicle: no passengers, zero weight, odometer and counters, no trailer. */
    ghost predicate Pristine()
      reads this
    {
      passengers == [] && weight == 0 && odo == 0 && idleTime == 0 && moveTime == 0 && trailer == None
    }

    function State(): Clock
      reads this
    {
      Clock(moveTime, idleTime, odo)
    }

    constructor (kind: Kind, maxPassengers: nat)
      ensures Valid() && Pristine()
      ensures this.kind == kind && this.maxPassengers == maxPassengers
    {
      this.kind := kind;
      this.maxPassengers := maxPassengers;
      passengers := [];
      weight := 0;
      odo := 0;
      idleTime := 0;
      moveTime := 0;
      trailer := None;
    }

    /** Appends `p` when there is room, adding its weight to the cache; otherwise changes nothing. */
    method AddPassenger(p: Passenger) returns (ok: bool)
      requires Valid()
      modifies this`passengers, this`weight
      ensures Valid()
      ensures ok <==> old(|passengers|) < maxPassengers
      ensures passengers == if ok then old(passengers) + [p] else old(passengers)
      ensures weight == if ok then old(weight) + p.weight else old(weight)
    {
      if |passengers| >= maxPassengers {
        return false;
      }
      TotalWeightConcat(passengers, [p]);
      TotalWeightSingle(p);
      weight := weight + p.weight;
      passengers := passengers + [p];
      return true;
    }

    /** Removes exactly the passenger at `i`, keeping the others in order; out of range changes nothing. */
    method RemovePassenger(i: nat) returns (ok: bool)
      requires Valid()
      modifies this`passengers, this`weight
      ensures Valid()
      ensures ok <==> i < old(|passengers|)
      ensures ok ==> (passengers == old(passengers[..i] + passengers[i + 1..])
                   && weight == old(weight - passengers[i].weight))
      ensures !ok ==> passengers == old(passengers) && weight == old(weight)
    {
      if i >= |passengers| {
        return false;
      }
      TotalWeightRemoveAt(passengers, i);
      weight := weight - passengers[i].weight;
      passengers := passengers[..i] + passengers[i + 1..];
      return true;
    }

    /** As RemovePassenger, but hands the removed passenger back; `None` when out of range. */
    method ReleasePassenger(i: nat) returns (released: Option<Passenger>)
      requires Valid()
      modifies this`passengers, this`weight
      ensures Valid()
      ensures released.Some? <==> i < old(|passengers|)
      ensures released.Some? ==> (released.value == old(passengers[i])
                               && passengers == old(passengers[..i] + passengers[i + 1..])
                               && weight == old(weight - passengers[i].weight))
      ensures released.None? ==> passengers == old(passengers) && weight == old(weight)
    {
      if i >= |passengers| {
        return None;
      }
      TotalWeightRemoveAt(passengers, i);
      weight := weight - passengers[i].weight;
      released := Some(passengers[i]);
      passengers := passengers[..i] + passengers[i + 1..];
    }

    /** The passenger at `i`, or `None` exactly when `i` is out of range. */
    function GetPassenger(i: nat): (r: Option<Passenger>)
      reads this
      ensures r.None? <==> i >= |passengers|
      ensures r.Some? ==> r.value == passengers[i]
    {
      if i >= |passengers| then None else Some(passengers[i])
    }

    /** The cached weight is the total weight of the manifest. */
    function GetPassengersWeight(): (w: nat)
      reads this
      requires Valid()
      ensures w == TotalWeight(passengers)
    {
      weight
    }

    /** Hands back the whole manifest in order and leaves the vehicle empty and weightless. */
    method ReleaseAllPassengers() returns (released: seq<Passenger>)
      requires Valid()
      modifies this`passengers, this`weight
      ensures Valid()
      ensures released == old(passengers) && TotalWeight(released) == old(weight)
      ensures passengers == [] && weight == 0
    {
      released := passengers;
      weight := 0;
      passengers := [];
    }

    method AddOdo(distance: nat)
      modifies this`odo
      ensures odo == old(odo) + distance
    {
      odo := odo + distance;
    }

    method AddIdleTime()
      modifies this`idleTime
      ensures idleTime == old(idleTime) + 1
    {
      idleTime := idleTime + 1;
    }

    method ResetIdleTime()
      modifies this`idleTime
      ensures idleTime == 0
    {
      idleTime := 0;
    }

    method AddMoveTime()
      modifies this`moveTime
      ensures moveTime == old(moveTime) + 1
    {
      moveTime := moveTime + 1;
    }

    method ResetMoveTime()
      modifies this`moveTime
      ensures moveTime == 0
    {
      moveTime := 0;
    }

    /**
     * The current maximum speed, from the cached passenger weight; on a valid
     * vehicle it is the speed for the manifest's actual total weight.
     */
    function GetMaxSpeed(fm: FloatFormulas): (r: nat)
      reads this
      ensures Valid() ==> r == MaxSpeedOf(kind, TotalWeight(passengers), trailer, fm)
    {
      MaxSpeedOf(kind, weight, trailer, fm)
    }

    /** Attaches `t` to a sedan that has no trailer; fails and keeps the old trailer otherwise. */
    method AddTrailer(t: Trailer) returns (ok: bool)
      requires Valid() && kind.Sedan?
      modifies this`trailer
      ensures Valid()
      ensures ok <==> old(trailer).None?
      ensures trailer == if ok then Some(t) else old(trailer)
    {
      if trailer.Some? {
        return false;
      }
      trailer := Some(t);
      return true;
    }

    /** Detaches a sedan's trailer; fails when there is none. Either way none is attached afterwards. */
    method RemoveTrailer() returns (ok: bool)
      requires Valid() && kind.Sedan?
      modifies this`trailer
      ensures Valid()
      ensures ok <==> old(trailer).Some?
      ensures trailer == None
    {
      if trailer.None? {
        return false;
      }
      trailer := None;
      return true;
    }

    /**
     * One tick of the duty cycle, at the maximum speed computed before the
     * tick. Only the counters and the odometer change.
     */
    method TravelByMachina(fm: FloatFormulas)
      requires Valid()
      modifies this`moveTime, this`idleTime, this`odo
      ensures Valid()
      ensures State() == StepOf(kind, trailer.Some?, old(State()), GetMaxSpeed(fm))
    {
      var moveTime := this.moveTime;
      var idleTime := this.idleTime;
      var speed := GetMaxSpeed(fm);
      if kind.Sedan? {
        if moveTime < Sedans.MOVE_TIME {
          AddMoveTime();
          AddOdo(speed);
        } else if moveTime == Sedans.MOVE_TIME {
          AddIdleTime();
          if trailer.Some? {
            if this.idleTime == Sedans.IDLE_TIME_TRAIL_ON {
              ResetIdleTime();
              ResetMoveTime();
            }
          } else {
            if this.idleTime == Sedans.IDLE_TIME {
              ResetMoveTime();
              ResetIdleTime();
            }
          }
        }
      } else {
        var moveLimit, idleLimit := MoveLimit(kind), IdleLimit(kind, false);
        if moveTime < moveLimit {
          AddMoveTime();
          AddOdo(speed);
        } else if moveTime == moveLimit && idleTime < idleLimit {
          AddIdleTime();
          if this.idleTime == idleLimit {
            ResetMoveTime();
            ResetIdleTime();
          }
        }
      }
    }
  }

  method NewAirplane(maxPassengers: nat) returns (v: Vehicle)
    ensures fresh(v) && v.Valid() && v.Pristine()
    ensures v.kind == Airplane && v.maxPassengers == maxPassengers
  {
    v := new Vehicle(Airplane, maxPassengers);
  }

  method NewBoat(maxPassengers: nat) returns (v: Vehicle)
    ensures fresh(v) && v.Valid() && v.Pristine()
    ensures v.kind == Boat && v.maxPassengers == maxPassengers
  {
    v := new Vehicle(Boat, maxPassengers);
  }

  method NewBoatplane(maxPassengers: nat) returns (v: Vehicle)
    ensures fresh(v) && v.Valid() && v.Pristine()
    ensures v.kind == Boatplane(Boatplanes.FLY_BASE, Boatplanes.SAIL_BASE) && v.maxPassengers == maxPassengers
  {
    v := new Vehicle(Boatplane(Boatplanes.FLY_BASE, Boatplanes.SAIL_BASE), maxPassengers);
  }

  method NewMotorcycle() returns (v: Vehicle)
    ensures fresh(v) && v.Valid() && v.Pristine()
    ensures v.kind == Motorcycle(Motorcycles.DRIVE_BASE) && v.maxPassengers == Motorcycles.CAPACITY
  {
    v := new Vehicle(Motorcycle(Motorcycles.DRIVE_BASE), Motorcycles.CAPACITY);
  }

  method NewSedan() returns (v: Vehicle)
    ensures fresh(v) && v.Valid() && v.Pristine()
    ensures v.kind == Sedan && v.maxPassengers == Sedans.CAPACITY
  {
    v := new Vehicle(Sedan, Sedans.CAPACITY);
  }

  method NewUBoat() returns (v: Vehicle)
    ensures fresh(v) && v.Valid() && v.Pristine()
    ensures v.kind == UBoat(UBoats.SAIL_BASE, UBoats.DIVE_BASE) && v.maxPassengers == UBoats.CAPACITY
  {
    v := new Vehicle(UBoat(UBoats.SAIL_BASE, UBoats.DIVE_BASE), UBoats.CAPACITY);
  }
}
