/**
 * Passengers and trailers are plain values here: a passenger is a name and a
 * weight, a trailer is a weight. Ownership transfer in the source becomes
 * moving a value from one sequence to another.
 */
module Passengers {

  datatype Passenger = Passenger(name: string, weight: nat)

  datatype Trailer = Trailer(weight: nat)

  /** The sum of the weights of `ps`, the value a vehicle's weight cache must hold. */
  function TotalWeight(ps: seq<Passenger>): nat
  {
    if ps == [] then 0 else TotalWeight(ps[..|ps| - 1]) + ps[|ps| - 1].weight
  }

  /** The total weight of two manifests put one after the other is the sum of their totals. */
  lemma {:induction false} TotalWeightConcat(a: seq<Passenger>, b: seq<Passenger>)
    ensures TotalWeight(a + b) == TotalWeight(a) + TotalWeight(b)
    decreases |b|
  {
    if b == [] {
      assert a + b == a;
    } else {
      var b' := b[..|b| - 1];
      assert (a + b)[..|a + b| - 1] == a + b';
      TotalWeightConcat(a, b');
    }
  }

  /** A manifest of one passenger weighs what that passenger weighs. */
  lemma TotalWeightSingle(p: Passenger)
    ensures TotalWeight([p]) == p.weight
  {
    assert [p][..0] == [];
  }

  /** Removing the passenger at index `i` takes exactly that passenger's weight off the total. */
  lemma TotalWeightRemoveAt(ps: seq<Passenger>, i: nat)
    requires i < |ps|
    ensures TotalWeight(ps[..i] + ps[i + 1..]) + ps[i].weight == TotalWeight(ps)
  {
    var before, after := ps[..i], ps[i + 1..];
    var front := before + [ps[i]];
    assert ps == front + after;
    TotalWeightConcat(front, after);
    TotalWeightConcat(before, [ps[i]]);
    TotalWeightSingle(ps[i]);
    TotalWeightConcat(before, after);
  }
}
