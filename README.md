# Vehicle fleet simulation — a Dafny model

This project models the core of a small fleet simulator written in C++.

- **Vehicles** carry an ordered manifest of passengers. The manifest is bounded by a capacity. The vehicle caches the manifest's total weight and keeps an odometer and a pair of move/idle tick counters.
- **Vehicle variants** each compute a maximum speed from the current passenger weight. Each runs a move/idle duty cycle on every tick. The variants are Airplane, Boat, Boatplane, Motorcycle, Sedan (with an optional trailer) and UBoat.
- **The fleet manager**, `DeusExMachina`, holds at most ten vehicles. It ticks all of them and reports the vehicle that has travelled furthest.
- **The merge operators** `Airplane + Boat` and `Boat + Airplane` build a Boatplane and move both manifests into it.

Files and modules:

- `passengers.dfy` (`Passengers`): passenger and trailer values, and `TotalWeight`, the sum the weight cache must equal.
- `formulas.dfy` (`Formulas`): the floating-point speed formulas. The caller supplies them as functions.
- `duty_cycle.dfy` (`DutyCycle`): the guarded move/idle cycle. Five variants share it word for word. This module has its periodicity and reachability lemmas.
- `airplane.dfy`, `boat.dfy`, `boatplane.dfy`, `uboat.dfy`, `motorcycle.dfy`, `sedan.dfy`: one module per variant. Each has its timing constants, its speed functions and its cycle lemmas. The Sedan module also has its own unguarded tick rule.
- `vehicle.dfy` (`Vehicles`): the `Vehicle` class, which holds the base state and the variant `Kind`. It also holds dispatch of speed and tick on the kind, and the variant constructors.
- `merge.dfy` (`Merge`): the two merge operators.
- `fleet.dfy` (`Machina`): the `DeusExMachina` class.
- `scenarios.dfy` (`Scenarios`): the driver's assertions that depend neither on the floating-point formulas nor on the singleton, replayed against the contracts alone. Its fleet scenario fills the fleet with ten airplanes rather than the driver's mixed fleet, since only the count matters to the capacity bound.

The variants form a closed set, so there is no class hierarchy. One `Vehicle` class carries a `Kind`. The kind holds the base parameters of the variant's capabilities: Boatplane 500/800, UBoat 550/150, Motorcycle 400. Speed and tick dispatch on the kind.

A tick is a `Clock(moveTime, idleTime, odo)` transition: `GuardedStep` for the five guarded variants and `Sedans.Step` for the sedan. `Vehicle.TravelByMachina` makes the same calls in the same order as the source. Its postcondition ties the new counters and odometer to that transition.

Three behaviours of the code a reader might not expect:

- Both merge operators put the plane's passengers first, then the boat's (Game/Vehicles/Airplane.cpp:28-38, Game/Vehicles/Boat.cpp:27-37).
- The sedan's idle branch has no `idleTime < limit` guard (Game/Vehicles/Sedan.cpp:117-135). It resets only when the idle count equals the limit for the trailer state at that tick. Suppose a trailer is removed after exactly one idle tick of a trailer cycle. The idle count then passes 1 and never equals 1 again, so the sedan idles for ever. `Sedans.TrailerRemovedAfterOneIdleTick` states this behaviour as the code has it.
- `Airplane` and `Boat` ignore their capability objects (Game/Vehicles/Airplane.cpp:50-58, Game/Vehicles/Boat.cpp:42-45). Their formulas use the literal constants 800 and 400, and the model does the same.

## Model

| member | source | states |
|---|---|---|
| `Passengers.TotalWeightConcat` | Engine/Vehicles/Vehicle.cpp:117-121 | The total weight of two manifests put end to end is the sum of their totals. This is what makes the merged weight equal the two sources' weights. |
| `Passengers.TotalWeightSingle` | Engine/Vehicles/Vehicle.cpp:63-64 | Appending one passenger adds exactly that passenger's weight: a one-passenger manifest weighs that passenger's weight. |
| `Passengers.TotalWeightRemoveAt` | Engine/Vehicles/Vehicle.cpp:75-76 | Erasing index i lowers the total weight by exactly that passenger's weight, so the cache stays exact after a removal. |
| `Vehicles.Vehicle.constructor` | Engine/Vehicles/Vehicle.cpp:8-16 | A new vehicle has the given kind and capacity. It has no passengers, zero weight, odometer and counters, and no trailer. |
| `Vehicles.Vehicle.AddPassenger` | Engine/Vehicles/Vehicle.cpp:56-66 | It succeeds iff the count is below capacity. On success it appends at the end and adds the passenger's weight. On failure nothing changes. The capacity bound and the weight cache are preserved. |
| `Vehicles.Vehicle.RemovePassenger` | Engine/Vehicles/Vehicle.cpp:68-78 | It succeeds iff i < count. On success it removes exactly index i, keeps the others in order and subtracts that passenger's weight. On failure nothing changes. |
| `Vehicles.Vehicle.ReleasePassenger` | Engine/Vehicles/Vehicle.cpp:80-91 | It returns the passenger formerly at index i and leaves the same manifest and weight as `RemovePassenger`. It returns `None` and changes nothing when i is out of range. |
| `Vehicles.Vehicle.GetPassenger` | Engine/Vehicles/Vehicle.cpp:103-110 | The result is `None` iff i >= count, and otherwise it is element i. |
| `Vehicles.Vehicle.GetPassengersWeight` | Engine/Vehicles/Vehicle.cpp:112-115 | On a valid vehicle the cached weight equals the sum of the passenger weights. |
| `Vehicles.Vehicle.ReleaseAllPassengers` | Engine/Vehicles/Vehicle.cpp:117-121 | It returns the whole manifest in its original order, whose total is the old cached weight. The vehicle is left with no passengers and zero weight. |
| `Vehicles.Vehicle.AddOdo` | Engine/Vehicles/Vehicle.cpp:128-131 | The odometer grows by exactly `distance`. Its frame is the odometer alone. |
| `Vehicles.Vehicle.AddIdleTime` | Engine/Vehicles/Vehicle.cpp:138-141 | The idle counter grows by one. Nothing else may change. |
| `Vehicles.Vehicle.ResetIdleTime` | Engine/Vehicles/Vehicle.cpp:143-146 | The idle counter becomes 0. Nothing else may change. |
| `Vehicles.Vehicle.AddMoveTime` | Engine/Vehicles/Vehicle.cpp:153-156 | The move counter grows by one. Nothing else may change. |
| `Vehicles.Vehicle.ResetMoveTime` | Engine/Vehicles/Vehicle.cpp:158-161 | The move counter becomes 0. Nothing else may change. |
| `Vehicles.Vehicle.AddTrailer` | Game/Vehicles/Sedan.cpp:42-51 | It succeeds iff no trailer is attached, and then attaches the given one. On failure the original trailer stays. |
| `Vehicles.Vehicle.RemoveTrailer` | Game/Vehicles/Sedan.cpp:53-62 | It succeeds iff a trailer is attached. Afterwards no trailer is attached either way. |
| `Vehicles.Vehicle.GetMaxSpeed` | Engine/Vehicles/Vehicle.h:26 | A vehicle's maximum speed, dispatched on its kind and computed from the cached passenger weight (and the trailer for a sedan). On a valid vehicle it equals the speed for the manifest's actual total weight. |
| `Vehicles.Vehicle.TravelByMachina` | Game/Vehicles/Sedan.cpp:106-137 | The new counters and odometer are one `StepOf` of the old ones, at the current maximum speed. Passengers, weight and trailer are untouched. The five guarded variants follow the same code in Boat.cpp:52-73, Airplane.cpp:60-81, Boatplane.cpp:48-70, UBoat.cpp:46-67 and Motorcycle.cpp:35-56. |
| `Vehicles.MaxSpeedOf` | Game/Vehicles/UBoat.cpp:19-22 | A vehicle's `GetMaxSpeed` dispatches to its variant's formula. Boats and Boatplanes are never below 20 and UBoats never below 200. A Sedan is always between 300 and 480. |
| `Vehicles.IdleLimit` | Game/Vehicles/Sedan.h:25 | Every variant's idle limit is at least 1. The sedan's is 2 with a trailer and 1 without; the other limits are the header constants. |
| `Vehicles.StepOf` | Game/Vehicles/Boat.cpp:52-73 | For every kind, a tick adds the speed to the odometer when moveTime < MOVE_TIME and leaves it unchanged otherwise. Idle ticks never travel. |
| `Vehicles.RunOfGuarded` | Game/Vehicles/UBoat.cpp:46-67 | For every kind but Sedan, repeated ticks are the shared guarded cycle with that kind's limits. |
| `Vehicles.RunOfSedan` | Game/Vehicles/Sedan.cpp:106-137 | For a Sedan, repeated ticks are the sedan's own tick rule. |
| `Vehicles.DutyCyclePeriod` | Game/Vehicles/Airplane.cpp:60-81 | For every kind, MOVE_TIME + IDLE_TIME ticks from reset counters return to (0,0). They add the speed exactly MOVE_TIME times. |
| `Vehicles.ReachableInCycle` | Game/Vehicles/Boatplane.cpp:54-69 | For every kind, from reset counters and with trailer state fixed: moveTime <= MOVE_TIME, idleTime < IDLE_TIME, and idling only after a full move phase. |
| `DutyCycle.GuardedStep` | Game/Vehicles/Airplane.cpp:60-81 | One tick of the duty cycle that Airplane, Boat, Boatplane, UBoat and Motorcycle share: below the move limit it counts a move tick and adds the speed; at the move limit with idle time left it counts an idle tick and resets both counters exactly when the idle count reaches its limit; otherwise nothing changes. The odometer gains the speed exactly on move ticks. |
| `DutyCycle.GuardedStepOdometer` | Game/Vehicles/Motorcycle.cpp:41-55 | The guarded tick adds the speed on a move tick and leaves the odometer unchanged on every other tick. |
| `DutyCycle.GuardedStepInCycle` | Game/Vehicles/Boatplane.cpp:54-69 | One guarded tick keeps a vehicle inside its cycle. |
| `DutyCycle.GuardedRunInCycle` | Game/Vehicles/UBoat.cpp:52-66 | Any number of guarded ticks keep a vehicle inside its cycle and never lower the odometer. |
| `DutyCycle.GuardedRunSplit` | Game/Vehicles/Boat.cpp:52-73 | a ticks followed by b ticks equal a + b ticks. |
| `DutyCycle.GuardedMovePhase` | Game/Vehicles/Boat.cpp:58-63 | Each move-phase tick adds the speed: k ticks add k × speed and advance moveTime by k. |
| `DutyCycle.GuardedIdlePhase` | Game/Vehicles/Boat.cpp:64-72 | Idle ticks short of the limit only count up the idle counter. |
| `DutyCycle.GuardedCycle` | Game/Vehicles/Boat.cpp:52-73 | From (0,0), M + I ticks return to (0,0) and add M × speed. |
| `DutyCycle.GuardedCycles` | Game/Vehicles/Boat.cpp:52-73 | From (0,0), k whole cycles return to (0,0) and add k × M × speed. |
| `Airplanes.FlySpeed` | Game/Vehicles/Airplane.cpp:50-53 | The fly speed is the supplied floating-point formula of the passenger weight; no capability parameter enters it. |
| `Airplanes.DriveSpeed` | Game/Vehicles/Airplane.cpp:55-58 | The drive speed is the supplied floating-point formula of the passenger weight; no capability parameter enters it. |
| `Airplanes.MaxSpeed` | Game/Vehicles/Airplane.cpp:43-48 | The result is the larger of the fly and drive speeds: at least each, and equal to one of them. |
| `Airplanes.Cycle` | Game/Vehicles/Airplane.cpp:60-81 | From (0,0), 4 ticks return to (0,0) and add 1 × speed. |
| `Airplanes.Reachable` | Game/Vehicles/Airplane.cpp:66-80 | From (0,0): moveTime <= 1 and idleTime < 3, idling only with moveTime == 1; the odometer never decreases. |
| `Boats.SailSpeed` | Game/Vehicles/Boat.cpp:42-45 | The result is 800 − 10·w up to weight 78 and 20 from there on, so it is never below 20. |
| `Boats.MaxSpeed` | Game/Vehicles/Boat.cpp:47-50 | The maximum speed equals the sail speed. |
| `Boats.SailSpeedNonIncreasing` | Game/Vehicles/Boat.cpp:42-45 | A heavier boat is never faster. |
| `Boats.Cycle` | Game/Vehicles/Boat.cpp:52-73 | From (0,0), 3 ticks return to (0,0) and add 2 × speed. |
| `Boats.Reachable` | Game/Vehicles/Boat.cpp:52-73 | From (0,0): moveTime <= 2 and idleTime == 0 after every tick; the odometer never decreases. |
| `Boats.EmptyBoatTwelveTicks` | Game/main.cpp:103-116 | An empty boat ticked 12 times from new has odometer 6400 and counters (0,0). |
| `Boatplanes.FlySpeed` | Game/Vehicles/Boatplane.cpp:19-23 | The fly speed is the supplied rounded formula of the flying base parameter and the passenger weight, with no clamp. |
| `Boatplanes.SailSpeed` | Game/Vehicles/Boatplane.cpp:25-29 | The rounded sail formula is clamped from below at 20: at least 20, at least the formula, and equal to one of them. |
| `Boatplanes.MaxSpeed` | Game/Vehicles/Boatplane.cpp:31-36 | The larger of fly and sail speed, at least each, hence at least 20. |
| `Boatplanes.Cycle` | Game/Vehicles/Boatplane.cpp:48-70 | From (0,0), 4 ticks return to (0,0) and add 1 × speed. |
| `Boatplanes.Reachable` | Game/Vehicles/Boatplane.cpp:54-69 | From (0,0): moveTime <= 1, idleTime < 3, and idleTime > 0 implies moveTime == 1. |
| `Vehicles.NewBoatplane` | Game/Vehicles/Boatplane.cpp:8-13 | A fresh, empty Boatplane of the requested capacity, with base parameters 500 (fly) and 800 (sail). |
| `UBoats.SailSpeed` | Game/Vehicles/UBoat.cpp:24-28 | The rounded sail formula is clamped from below at 200. |
| `UBoats.DiveSpeed` | Game/Vehicles/UBoat.cpp:30-34 | The dive speed is the supplied logarithmic formula of the diving base parameter and the passenger weight, with no clamp. |
| `UBoats.MaxSpeed` | Game/Vehicles/UBoat.cpp:19-22 | The larger of sail and dive speed, at least each, hence at least 200. |
| `UBoats.Cycle` | Game/Vehicles/UBoat.cpp:46-67 | From (0,0), 6 ticks return to (0,0) and add 2 × speed. |
| `UBoats.Reachable` | Game/Vehicles/UBoat.cpp:52-66 | From (0,0): moveTime <= 2, idleTime < 4, idling only after the move phase. |
| `Vehicles.NewUBoat` | Game/Vehicles/UBoat.cpp:8-13 | A fresh, empty UBoat of capacity 50 with base parameters 550 (sail) and 150 (dive). |
| `Motorcycles.DriveSpeed` | Game/Vehicles/Motorcycle.cpp:23-28 | The result is the truncation of the formula plus one half, clamped at 0.0 first. It is 0 when that value is not positive and never wraps around. |
| `Motorcycles.MaxSpeed` | Game/Vehicles/Motorcycle.cpp:18-21 | The maximum speed equals the drive speed. |
| `Motorcycles.Cycle` | Game/Vehicles/Motorcycle.cpp:35-56 | From (0,0), 6 ticks return to (0,0) and add 5 × speed. |
| `Motorcycles.Reachable` | Game/Vehicles/Motorcycle.cpp:41-55 | From (0,0): moveTime <= 5 and idleTime == 0 after every tick. |
| `Vehicles.NewMotorcycle` | Game/Vehicles/Motorcycle.cpp:8-12 | A fresh, empty Motorcycle of capacity 2 with base drive parameter 400. |
| `Vehicles.NewAirplane` | Game/Vehicles/Airplane.cpp:14-17 | A fresh, empty Airplane of the requested capacity. |
| `Vehicles.NewBoat` | Game/Vehicles/Boat.cpp:13-16 | A fresh, empty Boat of the requested capacity. |
| `Vehicles.NewSedan` | Game/Vehicles/Sedan.cpp:7-11 | A fresh, empty Sedan of capacity 4 with no trailer. |
| `Sedans.Load` | Game/Vehicles/Sedan.cpp:77-81 | The load the drive speed depends on is the passenger weight alone without a trailer, and the passenger weight plus the trailer's weight with one. |
| `Sedans.DriveSpeed` | Game/Vehicles/Sedan.cpp:74-104 | The speed is 480, 458, 400, 380 or 300 exactly when the load is ≤80, in (80,160], in (160,260], in (260,350] or above 350. The load is the passenger weight plus any trailer's weight. |
| `Sedans.MaxSpeed` | Game/Vehicles/Sedan.cpp:69-72 | The maximum speed equals the drive speed, always within [300, 480]. |
| `Sedans.DriveSpeedNonIncreasing` | Game/Vehicles/Sedan.cpp:83-102 | A heavier load is never faster. |
| `Sedans.Step` | Game/Vehicles/Sedan.cpp:106-137 | One sedan tick: the odometer gains the speed exactly when moveTime < 5. At moveTime 5 every tick idles, with no guard on the idle count, and both counters reset exactly when the new idle count equals the limit for the trailer state read at that tick (2 with a trailer, 1 without); otherwise the idle count grows by one. A moveTime above 5 is left alone. |
| `Sedans.StepOdometer` | Game/Vehicles/Sedan.cpp:111-116 | The odometer grows by the speed only on a move tick (moveTime < 5) and is unchanged otherwise. |
| `Sedans.StepAgreesInCycle` | Game/Vehicles/Sedan.cpp:117-136 | Inside the cycle for the current trailer state, the missing idle guard makes no difference: the sedan steps like a guarded vehicle. |
| `Sedans.RunAgreesInCycle` | Game/Vehicles/Sedan.cpp:106-137 | With the trailer state fixed, from inside the cycle, any number of sedan ticks equal the guarded cycle's. |
| `Sedans.Cycle` | Game/Vehicles/Sedan.cpp:106-137 | From (0,0) with the trailer state fixed, the counters return to (0,0) after 6 ticks without a trailer or 7 with one. The speed is added 5 times. |
| `Sedans.Reachable` | Game/Vehicles/Sedan.cpp:106-137 | From (0,0) with the trailer state fixed: moveTime <= 5, idleTime below the trailer-dependent limit, and the odometer never decreases. |
| `Sedans.IdlesForeverWithoutTrailer` | Game/Vehicles/Sedan.cpp:117-135 | Without a trailer, a sedan at moveTime 5 with idleTime >= 1 only counts up idleTime for ever. It never resets and never moves. |
| `Sedans.TrailerRemovedAfterOneIdleTick` | Game/Vehicles/Sedan.cpp:117-135 | A trailer cycle reaches (5, 1) after 6 ticks. If the trailer is removed then, every later tick leaves the odometer unchanged and moveTime at 5. |
| `Merge.AddEach` | Game/Vehicles/Airplane.cpp:29-32 | Offering a list of passengers in turn appends, in order, exactly those that fit in the remaining room. |
| `Merge.AirplanePlusBoat` | Game/Vehicles/Airplane.cpp:23-39 | The result is a fresh Boatplane (500/800) of capacity plane + boat. Its manifest is the plane's passengers then the boat's, in original order, so every add succeeded. Its weight is the sum of both. Both sources end with 0 passengers and 0 weight. |
| `Merge.BoatPlusAirplane` | Game/Vehicles/Boat.cpp:22-39 | The result is a fresh Boatplane of capacity boat + plane. Its manifest is the plane's passengers then the boat's, and its weight is the sum of both. Both sources end empty and weightless. |
| `Machina.FurthestIndex` | Engine/Core/DeusExMachina.cpp:61-73 | The left-to-right scan with strict `>` returns an index whose reading is maximal, with every earlier reading strictly smaller. |
| `Machina.FirstFurthestUnique` | Engine/Core/DeusExMachina.cpp:61-73 | At most one index is maximal with no earlier index reaching it, so the tie rule picks one vehicle. |
| `Machina.OdometersOf` | Engine/Core/DeusExMachina.cpp:63-70 | The odometer readings of a vehicle sequence, element by element. |
| `Machina.DeusExMachina.constructor` | Engine/Core/DeusExMachina.cpp:19-22 | A fresh fleet is empty. This is what the next access sees after `ResetInstance`. |
| `Machina.DeusExMachina.GetVehicleCount` | Engine/Core/DeusExMachina.cpp:76-79 | The count is the length of the vehicle sequence. |
| `Machina.DeusExMachina.AddVehicle` | Engine/Core/DeusExMachina.cpp:32-41 | It succeeds iff fewer than 10 vehicles are held, and then appends at the end. On failure nothing changes, so a full fleet stays at 10. |
| `Machina.DeusExMachina.RemoveVehicle` | Engine/Core/DeusExMachina.cpp:43-52 | It succeeds iff i < count. On success it removes exactly index i and shifts the later vehicles down in order. On failure nothing changes. |
| `Machina.DeusExMachina.Travel` | Engine/Core/DeusExMachina.cpp:24-30 | Every vehicle takes exactly one step of its own duty cycle. The fleet sequence, every manifest, weight and trailer are unchanged. |
| `Machina.DeusExMachina.Odometers` | Engine/Core/DeusExMachina.cpp:63-70 | The fleet's odometer readings, in fleet order. |
| `Machina.DeusExMachina.GetFurthestTravelled` | Engine/Core/DeusExMachina.cpp:54-74 | The result is `None` iff the fleet is empty. Otherwise it is the vehicle at the first index with the maximal odometer. |

## Left out

- The floating-point formulas are not modelled: the `exp`-based fly and drive speeds of the Airplane and Boatplane, `round(800 - 1.7 w)`, the UBoat's `w / 10.0` and `log`, and the Motorcycle's `pow`. They are fields of `FloatFormulas`, functions of base parameter and weight that the caller supplies. The model keeps only the clamps and casts the code applies around them. So the driver's values 648 and 59 for an airplane carrying 212 cannot be derived, and neither can which vehicle is furthest after the driver's twelve fleet ticks.
- `TravelContext` is not modelled: every `TravelByMachina` ignores it. The floating-point library stands in for it as the tick's parameter.
- The lazily created global instance and the identity of the pointer `GetInstance` returns are not modelled. The fleet is an ordinary object, and `ResetInstance` is a fresh empty fleet from the constructor.
- Copy and move constructors and assignments, and `unique_ptr` ownership, are not modelled. Passengers and trailers are values. Unique ownership of vehicles is the fleet invariant that no vehicle is held twice, together with the precondition that an added vehicle is not already held.
- The capability wrapper classes and their setters are not modelled; base parameters are fixed fields of the vehicle's kind. No core operation calls a setter.
- Boats.SailSpeed: uses exact integers. The source computes `800 - 10 * w` in 32-bit unsigned arithmetic before the cast to `int`, which wraps for weights above about 214 million.
- Every weight, the odometer and the counters are unbounded naturals; 32-bit unsigned wrap-around of these sums is not modelled.
- The order in which `Travel` ticks the vehicles is not observable in the model: vehicles are distinct objects and a tick touches only its own vehicle.
- The merge loops ignore the boolean each `AddPassenger` returns, and so does the model. That every add in a merge succeeds is stated through the merged manifest, which holds every passenger of both sources.
