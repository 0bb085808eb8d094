/**
 * The two merge operators, `Airplane + Boat` and `Boat + Airplane`: both build
 * a Boatplane sized to the sum of the two capacities and move every passenger
 * into it, the plane's first and then the boat's, leaving both sources empty.
 */
module Merge {
  import opened Passengers
  import opened DutyCycle
  import opened Vehicles
  import Boatplanes

  function Min(a: nat, b: nat): nat
  {
    if a <= b then a else b
  }

  /**
   * Offers each of `ps` in turn to `target`: the passengers that fit are
   * appended in order, the rest are turned away.
   */
  method AddEach(target: Vehicle, ps: seq<Passenger>)
    requires target.Valid()
    modifies target`passengers, target`weight
    ensures target.Valid()
    ensures target.passengers
         == old(target.passengers) + ps[..Min(|ps|, target.maxPassengers - |old(target.passengers)|)]
  {
    ghost var room := target.maxPassengers - |target.passengers|;
    for i := 0 to |ps|
      invariant target.Valid()
      invariant target.passengers == old(target.passengers) + ps[..Min(i, room)]
    {
      var _ := target.AddPassenger(ps[i]);
      assert ps[..Min(i + 1, room)] == if i < room then ps[..Min(i, room)] + [ps[i]] else ps[..Min(i, room)];
    }
  }

  /** `plane + boat`. */
  method AirplanePlusBoat(plane: Vehicle, boat: Vehicle) returns (bp: Vehicle)
    requires plane.kind.Airplane? && boat.kind.Boat?
    requires plane.Valid() && boat.Valid()
    modifies plane`passengers, plane`weight, boat`passengers, boat`weight
    ensures fresh(bp) && bp.Valid()
    ensures bp.kind == Boatplane(Boatplanes.FLY_BASE, Boatplanes.SAIL_BASE)
    ensures bp.maxPassengers == plane.maxPassengers + boat.maxPassengers
    ensures bp.passengers == old(plane.passengers) + old(boat.passengers)
    ensures bp.weight == old(plane.weight) + old(boat.weight)
    ensures bp.State() == Clock(0, 0, 0) && bp.trailer.None?
    ensures plane.Valid() && plane.passengers == [] && plane.weight == 0
    ensures boat.Valid() && boat.passengers == [] && boat.weight == 0
  {
    bp := NewBoatplane(plane.maxPassengers + boat.maxPassengers);
    var planePassengers := plane.ReleaseAllPassengers();
    AddEach(bp, planePassengers);
    assert planePassengers[..Min(|planePassengers|, bp.maxPassengers)] == planePassengers;
    var boatPassengers := boat.ReleaseAllPassengers();
    AddEach(bp, boatPassengers);
    assert boatPassengers[..Min(|boatPassengers|, bp.maxPassengers - |planePassengers|)] == boatPassengers;
    TotalWeightConcat(planePassengers, boatPassengers);
  }

  /** `boat + plane`: the same manifest as `plane + boat`, the plane's passengers first. */
  method BoatPlusAirplane(boat: Vehicle, plane: Vehicle) returns (bp: Vehicle)
    requires boat.kind.Boat? && plane.kind.Airplane?
    requires boat.Valid() && plane.Valid()
    modifies boat`passengers, boat`weight, plane`passengers, plane`weight
    ensures fresh(bp) && bp.Valid()
    ensures bp.kind == Boatplane(Boatplanes.FLY_BASE, Boatplanes.SAIL_BASE)
    ensures bp.maxPassengers == boat.maxPassengers + plane.maxPassengers
    ensures bp.passengers == old(plane.passengers) + old(boat.passengers)
    ensures bp.weight == old(plane.weight) + old(boat.weight)
    ensures bp.State() == Clock(0, 0, 0) && bp.trailer.None?
    ensures plane.Valid() && plane.passengers == [] && plane.weight == 0
    ensures boat.Valid() && boat.passengers == [] && boat.weight == 0
  {
    bp := NewBoatplane(boat.maxPassengers + plane.maxPassengers);
    var planePassengers := plane.ReleaseAllPassengers();
    AddEach(bp, planePassengers);
    assert planePassengers[..Min(|planePassengers|, bp.maxPassengers)] == planePassengers;
    var myPassengers := boat.ReleaseAllPassengers();
    AddEach(bp, myPassengers);
    assert myPassengers[..Min(|myPassengers|, bp.maxPassengers - |planePassengers|)] == myPassengers;
    TotalWeightConcat(planePassengers, myPassengers);
  }
}
