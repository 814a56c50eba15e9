/** How the optimum of pricing_logic.py:11-62 grows with the order count.
    When no price and no overage rate is negative, more orders never make
    the cheapest candidate cheaper. The search bound of a starter depends
    on the order count, but it is large enough. A combination found for
    more orders can be cut down to one that fits the smaller bound, costs
    no more, and still covers the smaller order count. */
module Monotone {
  import opened Common
  import opened Bundles
  import opened Combinations
  import opened Search

  /** The first `n` positions of `idx` whose bundles have positive
      capacity, in their original order. */
  function KeepPositive(pool: seq<Bundle>, idx: seq<nat>, n: nat): (r: seq<nat>)
    requires InRange(idx, 0, |pool|)
    ensures |r| <= n
  {
    if idx == [] || n == 0 then []
    else if pool[idx[0]].capacity > 0 then [idx[0]] + KeepPositive(pool, idx[1..], n - 1)
    else KeepPositive(pool, idx[1..], n)
  }

  /** What is kept lies where the whole combination lies. */
  lemma {:induction false} KeepPositiveInRange(pool: seq<Bundle>, idx: seq<nat>, n: nat, lo: nat)
    requires InRange(idx, lo, |pool|)
    ensures InRange(KeepPositive(pool, idx, n), lo, |pool|)
  {
    if idx != [] && n > 0 {
      var rest := idx[1..];
      assert InRange(rest, lo, |pool|) by {
        forall k | 0 <= k < |rest| ensures lo <= rest[k] < |pool| {
          assert rest[k] == idx[k + 1];
        }
      }
      if pool[idx[0]].capacity > 0 {
        KeepPositiveInRange(pool, rest, n - 1, lo);
        var kept := KeepPositive(pool, idx, n);
        var tail := KeepPositive(pool, rest, n - 1);
        assert kept == [idx[0]] + tail;
        forall k | 0 <= k < |kept| ensures lo <= kept[k] < |pool| {
          if k > 0 {
            assert kept[k] == tail[k - 1];
          }
        }
      } else {
        KeepPositiveInRange(pool, rest, n, lo);
      }
    }
  }

  /** What is kept is again a multiset of positions of the pool: the
      positions still never go down. */
  lemma {:induction false} KeepPositiveIsCombination(pool: seq<Bundle>, idx: seq<nat>, n: nat)
    requires InRange(idx, 0, |pool|) && NonDecreasing(idx)
    ensures InRange(KeepPositive(pool, idx, n), 0, |pool|)
    ensures NonDecreasing(KeepPositive(pool, idx, n))
  {
    KeepPositiveInRange(pool, idx, n, 0);
    if idx != [] && n > 0 {
      var rest := idx[1..];
      assert InRange(rest, 0, |pool|) && NonDecreasing(rest) by {
        forall k | 0 <= k < |rest| ensures rest[k] == idx[k + 1] { }
      }
      if pool[idx[0]].capacity > 0 {
        KeepPositiveIsCombination(pool, rest, n - 1);
        var kept := KeepPositive(pool, idx, n);
        var tail := KeepPositive(pool, rest, n - 1);
        assert InRange(rest, idx[0], |pool|) by {
          forall k | 0 <= k < |rest| ensures idx[0] <= rest[k] {
            assert rest[k] == idx[k + 1];
          }
        }
        KeepPositiveInRange(pool, rest, n - 1, idx[0]);
        assert kept == [idx[0]] + tail;
        forall i, j | 0 <= i < j < |kept| ensures kept[i] <= kept[j] {
          assert kept[j] == tail[j - 1];
          if i > 0 {
            assert kept[i] == tail[i - 1];
          }
        }
      } else {
        KeepPositiveIsCombination(pool, rest, n);
      }
    }
  }

  /** What the bundles at the given positions cost together. */
  function CostOf(pool: seq<Bundle>, idx: seq<nat>): real
    requires InRange(idx, 0, |pool|)
  {
    if idx == [] then 0.0 else pool[idx[0]].cost + CostOf(pool, idx[1..])
  }

  /** How many orders the bundles at the given positions hold together. */
  function CapacityOf(pool: seq<Bundle>, idx: seq<nat>): int
    requires InRange(idx, 0, |pool|)
  {
    if idx == [] then 0 else pool[idx[0]].capacity + CapacityOf(pool, idx[1..])
  }

  /** The sums over positions are the sums of the picked bundles. */
  lemma {:induction false} PickSums(pool: seq<Bundle>, idx: seq<nat>)
    requires InRange(idx, 0, |pool|)
    ensures SumCost(Pick(pool, idx)) == CostOf(pool, idx)
    ensures SumCapacity(Pick(pool, idx)) == CapacityOf(pool, idx)
  {
    if idx != [] {
      assert Pick(pool, idx)[1..] == Pick(pool, idx[1..]);
      PickSums(pool, idx[1..]);
    }
  }

  /** Bundles that cost nothing negative add up to nothing negative. */
  lemma {:induction false} CostOfNonNegative(pool: seq<Bundle>, idx: seq<nat>)
    requires InRange(idx, 0, |pool|)
    requires forall i :: 0 <= i < |pool| ==> pool[i].cost >= 0.0
    ensures CostOf(pool, idx) >= 0.0
  {
    if idx != [] {
      CostOfNonNegative(pool, idx[1..]);
    }
  }

  /** Dropping bundles that cost nothing negative does not raise the price. */
  lemma {:induction false} KeepPositiveCostsLess(pool: seq<Bundle>, idx: seq<nat>, n: nat)
    requires InRange(idx, 0, |pool|)
    requires forall i :: 0 <= i < |pool| ==> pool[i].cost >= 0.0
    ensures InRange(KeepPositive(pool, idx, n), 0, |pool|)
    ensures CostOf(pool, KeepPositive(pool, idx, n)) <= CostOf(pool, idx)
  {
    KeepPositiveInRange(pool, idx, n, 0);
    if idx != [] {
      if n == 0 {
        CostOfNonNegative(pool, idx);
      } else if pool[idx[0]].capacity > 0 {
        var kept := KeepPositive(pool, idx, n);
        KeepPositiveCostsLess(pool, idx[1..], n - 1);
        assert kept[1..] == KeepPositive(pool, idx[1..], n - 1);
      } else {
        KeepPositiveCostsLess(pool, idx[1..], n);
      }
    }
  }

  /** What is kept holds every order the whole combination holds, or at
      least `n` bundles' worth of the smallest positive capacity. */
  lemma {:induction false} KeepPositiveCovers(pool: seq<Bundle>, idx: seq<nat>, n: nat, smallest: nat)
    requires InRange(idx, 0, |pool|)
    requires forall i :: 0 <= i < |pool| && pool[i].capacity > 0 ==> smallest <= pool[i].capacity
    ensures InRange(KeepPositive(pool, idx, n), 0, |pool|)
    ensures var kept := CapacityOf(pool, KeepPositive(pool, idx, n));
      kept == CapacityOf(pool, idx) || kept >= n * smallest
  {
    KeepPositiveInRange(pool, idx, n, 0);
    if idx != [] && n > 0 {
      if pool[idx[0]].capacity > 0 {
        var kept := KeepPositive(pool, idx, n);
        KeepPositiveCovers(pool, idx[1..], n - 1, smallest);
        assert kept[1..] == KeepPositive(pool, idx[1..], n - 1);
        assert (n - 1) * smallest + smallest == n * smallest;
      } else {
        KeepPositiveCovers(pool, idx[1..], n, smallest);
      }
    }
  }

  /** Leaving no more orders uncovered costs no more at the overage rate. */
  lemma {:induction false} OverageGrows(x: int, y: int, rate: real)
    requires x <= y && rate >= 0.0
    ensures (if x > 0 then x as real * rate else 0.0) <= (if y > 0 then y as real * rate else 0.0)
  {
    if x > 0 {
      assert (y - x) as real * rate >= 0.0;
    }
  }

  /** A candidate that costs no more in bundles and leaves no more orders
      uncovered (or none at all) has a total no higher. */
  lemma {:induction false} EvaluateCompare(a: int, b: int, starter: Bundle, cheap: seq<Bundle>, dear: seq<Bundle>, rate: real)
    requires rate >= 0.0
    requires SumCost(cheap) <= SumCost(dear)
    requires var x := Max(0, a - starter.capacity) - SumCapacity(cheap);
      x <= 0 || x <= Max(0, b - starter.capacity) - SumCapacity(dear)
    ensures Evaluate(a, starter, cheap, rate).total <= Evaluate(b, starter, dear, rate).total
  {
    var x := Max(0, a - starter.capacity) - SumCapacity(cheap);
    var y := Max(0, b - starter.capacity) - SumCapacity(dear);
    var extraA := if x > 0 then x as real * rate else 0.0;
    var extraB := if y > 0 then y as real * rate else 0.0;
    assert Evaluate(a, starter, cheap, rate).total == starter.cost + SumCost(cheap) + extraA;
    assert Evaluate(b, starter, dear, rate).total == starter.cost + SumCost(dear) + extraB;
    if x > 0 {
      OverageGrows(x, y, rate);
    } else if y > 0 {
      OverageGrows(0, y, rate);
    }
  }

  /** A combination of the search space for `b` orders has a counterpart
      in the search space for `a <= b` orders that costs no more. */
  lemma {:induction false} ShrinkToBound(a: int, b: int, starter: Bundle, pool: seq<Bundle>, rate: real, ceiling: nat, smallest: nat, idx: seq<nat>)
    returns (kept: seq<nat>)
    requires a <= b && rate >= 0.0 && smallest > 0
    requires forall i :: 0 <= i < |pool| ==> pool[i].cost >= 0.0
    requires forall i :: 0 <= i < |pool| && pool[i].capacity > 0 ==> smallest <= pool[i].capacity
    requires InRange(idx, 0, |pool|) && NonDecreasing(idx)
    requires |idx| <= SearchBound(b, starter, smallest, ceiling)
    ensures InRange(kept, 0, |pool|) && NonDecreasing(kept)
    ensures |kept| <= SearchBound(a, starter, smallest, ceiling)
    ensures Evaluate(a, starter, Pick(pool, kept), rate).total <= Evaluate(b, starter, Pick(pool, idx), rate).total
  {
    var boundA := SearchBound(a, starter, smallest, ceiling);
    if |idx| <= boundA {
      kept := idx;
      EvaluateCompare(a, b, starter, Pick(pool, idx), Pick(pool, idx), rate);
    } else {
      SearchBoundFits(a, starter, smallest, ceiling);
      assert boundA >= 2;
      var need: nat := boundA - 1;
      assert need * smallest > Max(0, a - starter.capacity);
      kept := KeepPositive(pool, idx, need);
      KeepPositiveIsCombination(pool, idx, need);
      KeepPositiveCostsLess(pool, idx, need);
      KeepPositiveCovers(pool, idx, need, smallest);
      PickSums(pool, idx);
      PickSums(pool, kept);
      EvaluateCompare(a, b, starter, Pick(pool, kept), Pick(pool, idx), rate);
    }
  }

  /** With no negative price or rate, the optimum's total never falls as
      the order count grows. */
  lemma {:induction false} OptimumMonotone(a: int, b: int, starts: seq<Bundle>, pool: seq<Bundle>, rate: real, ceiling: nat)
    requires a <= b && rate >= 0.0
    requires forall i :: 0 <= i < |pool| ==> pool[i].cost >= 0.0
    requires starts != [] && MinPositiveCapacity(pool).Some?
    ensures Optimum(a, starts, pool, rate, ceiling).Ok? && Optimum(a, starts, pool, rate, ceiling).value.Some?
    ensures Optimum(b, starts, pool, rate, ceiling).Ok? && Optimum(b, starts, pool, rate, ceiling).value.Some?
    ensures Optimum(a, starts, pool, rate, ceiling).value.value.total
         <= Optimum(b, starts, pool, rate, ceiling).value.value.total
  {
    var smallest := MinPositiveCapacity(pool).value;
    MinPositiveCapacityIsLeast(pool);
    var i := OptimumIsFirstCheapest(b, starts, pool, rate, ceiling);
    var c := Candidates(b, starts, pool, rate, ceiling, smallest)[i];
    CandidatesSound(b, starts, pool, rate, ceiling, smallest, c);
    var t, idx :| InSearchSpace(b, starts, pool, ceiling, smallest, t, idx)
                  && c == Evaluate(b, starts[t], Pick(pool, idx), rate);
    var kept := ShrinkToBound(a, b, starts[t], pool, rate, ceiling, smallest, idx);
    OptimumIsCheapest(a, starts, pool, rate, ceiling, t, kept);
  }
}
