/**
 * The driver program's assertions that depend neither on the floating-point
 * speed formulas nor on the fleet being a singleton, replayed against the
 * contracts alone. The fleet scenario uses ten airplanes: only the count
 * matters to the capacity bound.
 */
module Scenarios {
  import opened Wrappers
  import opened Passengers
  import opened Vehicles
  import opened Merge
  import opened Machina

  /** An airplane and a boat with three passengers each merge into a boatplane of six. */
  method PassengersAndMerge()
  {
    var bob, james, tina := Passenger("Bob", 85), Passenger("James", 75), Passenger("Tina", 52);
    var peter, jane, steve := Passenger("Peter", 78), Passenger("Jane", 48), Passenger("Steve", 88);

    var a := NewAirplane(5);
    var ok := a.AddPassenger(bob);
    ok := a.AddPassenger(james);
    ok := a.AddPassenger(tina);
    assert a.maxPassengers == 5 && |a.passengers| == 3;
    assert a.GetPassenger(1) == Some(james);
    assert a.GetPassengersWeight() == 212;

    var b := NewBoat(5);
    ok := b.AddPassenger(peter);
    ok := b.AddPassenger(jane);
    ok := b.AddPassenger(steve);

    var bp := AirplanePlusBoat(a, b);
    assert |bp.passengers| == 6 && bp.maxPassengers == 10;
    assert |a.passengers| == 0 && |b.passengers| == 0;
  }

  /** A second trailer is refused and the first one stays attached. */
  method SecondTrailer()
  {
    var sedan := NewSedan();
    var added := sedan.AddTrailer(Trailer(50));
    assert added;
    added := sedan.AddTrailer(Trailer(60));
    assert !added && sedan.trailer == Some(Trailer(50));
  }

  /** An eleventh vehicle is refused; removals shift the fleet and an index past the end fails. */
  method FleetCapacity()
  {
    var fleet := new DeusExMachina();
    var i := 0;
    while i < 10
      invariant 0 <= i <= 10 && fleet.Valid() && |fleet.vehicles| == i
      invariant forall j :: 0 <= j < i ==> fresh(fleet.vehicles[j])
    {
      var plane := NewAirplane(5);
      var added := fleet.AddVehicle(plane);
      i := i + 1;
    }
    var extra := NewAirplane(5);
    var added := fleet.AddVehicle(extra);
    assert !added && fleet.GetVehicleCount() == 10;

    var removed := fleet.RemoveVehicle(9);
    removed := fleet.RemoveVehicle(8);
    removed := fleet.RemoveVehicle(7);
    assert removed && fleet.GetVehicleCount() == 7;
    removed := fleet.RemoveVehicle(9);
    assert !removed;

    var empty := new DeusExMachina();
    var none := empty.GetFurthestTravelled();
    assert none == None;
  }
}
