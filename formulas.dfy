/**
 * The speed formulas that go through floating point (`exp`, `log`, `pow`,
 * `round`) are not modelled: each is a function of the base parameter and the
 * passenger weight, supplied by the caller. The integer clamps and casts the
 * vehicles apply to these values are modelled in the vehicle modules.
 */
module Formulas {

  datatype FloatFormulas = FloatFormulas(
    /** Airplane: unsigned(200 e^((800 - w) / 500) + 0.5), by weight. */
    airplaneFly: nat -> nat,
    /** Airplane: unsigned(4 e^((400 - w) / 70) + 0.5), by weight. */
    airplaneDrive: nat -> nat,
    /** Boatplane: unsigned(round(150 e^((base - w) / 300))), by base and weight. */
    boatplaneFly: (nat, nat) -> nat,
    /** Boatplane: int(round(base - 1.7 w)) before the clamp, by base and weight. */
    boatplaneSailRounded: (nat, nat) -> int,
    /** UBoat: int(base - w / 10.0 + 0.5) before the clamp, by base and weight. */
    uboatSailRounded: (nat, nat) -> int,
    /** UBoat: unsigned(500 ln((w + base) / base) + 30 + 0.5), by base and weight. */
    uboatDive: (nat, nat) -> nat,
    /** Motorcycle: base + 2 w - (w / 15)^3 as a double, before rounding and the clamp. */
    motorcycleRaw: (nat, nat) -> real)
}
