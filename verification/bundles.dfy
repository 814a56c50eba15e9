/** Bundles as the combinatorial optimiser sees them: the tuples
    `(cost, orders, type)` of pricing_logic.py, with the tier tag as an
    enumerated variant. */
module Bundles {

  /** The tier tag of a bundle: the strings 'small' and 'big', or any other tag. */
  datatype Tier = Small | Big | OtherTier

  /** One bundle: its price, the number of orders it covers, and its tier. */
  datatype Bundle = Bundle(cost: real, capacity: nat, tier: Tier)

  /** Total price of a combination of bundles. */
  function SumCost(combo: seq<Bundle>): real
  {
    if combo == [] then 0.0 else combo[0].cost + SumCost(combo[1..])
  }

  /** Total number of orders a combination of bundles covers. */
  function SumCapacity(combo: seq<Bundle>): nat
  {
    if combo == [] then 0 else combo[0].capacity + SumCapacity(combo[1..])
  }

  /** Number of bundles of a given tier in a combination. */
  function CountTier(combo: seq<Bundle>, tier: Tier): nat
  {
    if combo == [] then 0
    else (if combo[0].tier == tier then 1 else 0) + CountTier(combo[1..], tier)
  }

  /** The bundles of a given tier, in their original order. */
  function OfTier(combo: seq<Bundle>, tier: Tier): (r: seq<Bundle>)
    ensures forall i :: 0 <= i < |r| ==> r[i].tier == tier && r[i] in combo
  {
    if combo == [] then []
    else (if combo[0].tier == tier then [combo[0]] else []) + OfTier(combo[1..], tier)
  }

  /** Filtering by tier keeps exactly the bundles the tier count counts. */
  lemma {:induction false} OfTierLength(combo: seq<Bundle>, tier: Tier)
    ensures |OfTier(combo, tier)| == CountTier(combo, tier)
  {
    if combo != [] {
      OfTierLength(combo[1..], tier);
    }
  }

  /** The small and the big bundles of a combination are disjoint parts of it. */
  lemma {:induction false} TierCountsBounded(combo: seq<Bundle>)
    ensures CountTier(combo, Small) + CountTier(combo, Big) <= |combo|
  {
    if combo != [] {
      TierCountsBounded(combo[1..]);
    }
  }
}
