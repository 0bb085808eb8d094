/**
 * The fleet manager: an ordered collection of at most ten distinct vehicles
 * that ticks all of them together and reports the one that has travelled
 * furthest.
 */
module Machina {
  import opened Wrappers
  import opened Vehicles
  import opened Formulas

  const MAX_VEHICLES_COUNT: nat := 10

  /**
   * Index `k` holds a maximal odometer reading and no earlier index reaches it,
   * so `k` is the first of the furthest-travelled vehicles.
   */
  ghost predicate FirstFurthest(odos: seq<nat>, k: nat)
  {
    k < |odos| && (forall j :: 0 <= j < |odos| ==> odos[j] <= odos[k]) && (forall j :: 0 <= j < k ==> odos[j] < odos[k])
  }

  /** The first index of a maximal reading, found left to right with a strict comparison. */
  function FurthestIndex(odos: seq<nat>): (k: nat)
    requires |odos| > 0
    ensures FirstFurthest(odos, k)
    decreases |odos|
  {
    if |odos| == 1 then 0
    else
      var k := FurthestIndex(odos[..|odos| - 1]);
      if odos[|odos| - 1] > odos[k] then |odos| - 1 else k
  }

  /** At most one index is the first furthest one. */
  lemma FirstFurthestUnique(odos: seq<nat>, k1: nat, k2: nat)
    requires FirstFurthest(odos, k1) && FirstFurthest(odos, k2)
    ensures k1 == k2
  {
    assert odos[k1] == odos[k2];
  }

  /** The odometer readings of `vs`, in order. */
  function OdometersOf(vs: seq<Vehicle>): (odos: seq<nat>)
    reads vs
    ensures |odos| == |vs| && forall i :: 0 <= i < |vs| ==> odos[i] == vs[i].odo
  {
    seq(|vs|, i reads vs requires 0 <= i < |vs| => vs[i].odo)
  }

  class DeusExMachina {
    var vehicles: seq<Vehicle>

    /** Within capacity, each vehicle held once, and every vehicle valid. */
    ghost predicate Valid()
      reads this, vehicles
    {
      && |vehicles| <= MAX_VEHICLES_COUNT
      && (forall i, j :: 0 <= i < j < |vehicles| ==> vehicles[i] != vehicles[j])
      && (forall i :: 0 <= i < |vehicles| ==> vehicles[i].Valid())
    }

    /** A fresh, empty fleet: what the next access sees after a reset. */
    constructor ()
      ensures Valid() && vehicles == []
    {
      vehicles := [];
    }

    /** The number of vehicles held. */
    function GetVehicleCount(): (n: nat)
      reads this
      ensures n == |vehicles|
    {
      |vehicles|
    }

    /** Appends `v` when fewer than ten vehicles are held; otherwise changes nothing. */
    method AddVehicle(v: Vehicle) returns (ok: bool)
      requires Valid() && v.Valid() && v !in vehicles
      modifies this
      ensures Valid()
      ensures ok <==> old(|vehicles|) < MAX_VEHICLES_COUNT
      ensures vehicles == if ok then old(vehicles) + [v] else old(vehicles)
    {
      if |vehicles| >= MAX_VEHICLES_COUNT {
        return false;
      }
      vehicles := vehicles + [v];
      return true;
    }

    /** Removes exactly the vehicle at `i`, shifting the later ones down; out of range changes nothing. */
    method RemoveVehicle(i: nat) returns (ok: bool)
      requires Valid()
      modifies this
      ensures Valid()
      ensures ok <==> i < old(|vehicles|)
      ensures vehicles == if ok then old(vehicles[..i] + vehicles[i + 1..]) else old(vehicles)
    {
      if i >= |vehicles| {
        return false;
      }
      ghost var before := vehicles;
      vehicles := vehicles[..i] + vehicles[i + 1..];
      assert forall j :: 0 <= j < |vehicles| ==> vehicles[j] == before[if j < i then j else j + 1];
      return true;
    }

    /**
     * Ticks every vehicle once, in fleet order. The fleet itself and every
     * manifest stay as they were; each vehicle's counters and odometer take
     * one step of its duty cycle.
     */
    method Travel(fm: FloatFormulas)
      requires Valid()
      modifies vehicles
      ensures Valid()
      ensures vehicles == old(vehicles)
      ensures forall i :: 0 <= i < |vehicles| ==>
        && vehicles[i].passengers == old(vehicles[i].passengers)
        && vehicles[i].weight == old(vehicles[i].weight)
        && vehicles[i].trailer == old(vehicles[i].trailer)
        && vehicles[i].State()
           == StepOf(vehicles[i].kind, vehicles[i].trailer.Some?, old(vehicles[i].State()), vehicles[i].GetMaxSpeed(fm))
    {
      for i := 0 to |vehicles|
        invariant Valid()
        invariant forall j :: 0 <= j < |vehicles| ==>
          && vehicles[j].passengers == old(vehicles[j].passengers)
          && vehicles[j].weight == old(vehicles[j].weight)
          && vehicles[j].trailer == old(vehicles[j].trailer)
        invariant forall j :: 0 <= j < i ==>
          vehicles[j].State()
          == StepOf(vehicles[j].kind, vehicles[j].trailer.Some?, old(vehicles[j].State()), vehicles[j].GetMaxSpeed(fm))
        invariant forall j :: i <= j < |vehicles| ==> vehicles[j].State() == old(vehicles[j].State())
      {
        vehicles[i].TravelByMachina(fm);
      }
    }

    /** The odometer readings of the fleet, in fleet order. */
    function Odometers(): (odos: seq<nat>)
      reads this, vehicles
      ensures |odos| == |vehicles| && forall i :: 0 <= i < |vehicles| ==> odos[i] == vehicles[i].odo
    {
      OdometersOf(vehicles)
    }

    /**
     * `None` for an empty fleet; otherwise the vehicle with the greatest
     * odometer reading, the first one in fleet order on a tie.
     */
    method GetFurthestTravelled() returns (furthestTravelled: Option<Vehicle>)
      ensures furthestTravelled.None? <==> |vehicles| == 0
      ensures |vehicles| > 0 ==> furthestTravelled == Some(vehicles[FurthestIndex(Odometers())])
    {
      if |vehicles| == 0 {
        return None;
      }
      ghost var odos := Odometers();
      var furthest := vehicles[0];
      var maxDistance := furthest.odo;
      ghost var k := 0;
      for i := 0 to |vehicles|
        invariant k < |vehicles| && furthest == vehicles[k] && maxDistance == odos[k]
        invariant k == FurthestIndex(odos[..if i == 0 then 1 else i])
      {
        if vehicles[i].odo > maxDistance {
          maxDistance := vehicles[i].odo;
          furthest := vehicles[i];
          k := i;
        }
        assert odos[..i + 1][..i] == odos[..i];
      }
      assert odos[..|vehicles|] == odos;
      return Some(furthest);
    }
  }
}
