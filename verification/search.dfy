/** The exhaustive optimiser `calculate_costs` of pricing_logic.py:11-62.
    For every starter bundle it tries every multiset of 0..bound prepaid
    bundles, prices the leftover orders at the overage rate, and keeps the
    first candidate whose total is strictly lower than everything seen
    before. `Optimum` is the specification (the first cheapest element of
    the candidate list, in enumeration order); `CalculateCosts` is the
    nested-loop search, proved equal to it. */
module Search {
  import opened Common
  import opened Bundles
  import opened Combinations

  /** The fixed cap on the number of prepaid bundles tried per starter
      (pricing_logic.py:39); the model takes it as a parameter. */
  const DEFAULT_CEILING: nat := 20

  /** `min()` over an empty sequence: no prepaid bundle has a positive capacity. */
  datatype SearchError = NoPositiveCapacity

  /** One priced candidate, the `best_combination` tuple of the source:
      the starter, the prepaid bundles, the uncovered orders, what those
      cost, and the total. */
  datatype Choice = Choice(starter: Bundle, combo: seq<Bundle>, leftover: nat, overage: real, total: real)

  /** The bundles at the given positions of the pool. */
  function Pick(pool: seq<Bundle>, idx: seq<nat>): (combo: seq<Bundle>)
    requires InRange(idx, 0, |pool|)
    ensures |combo| == |idx|
    ensures forall i :: 0 <= i < |idx| ==> combo[i] == pool[idx[i]]
  {
    if idx == [] then [] else [pool[idx[0]]] + Pick(pool, idx[1..])
  }

  /** Prices one candidate (pricing_logic.py:33,45-56). */
  function Evaluate(orders: int, starter: Bundle, combo: seq<Bundle>, rate: real): Choice
  {
    var remaining := Max(0, orders - starter.capacity);
    var after := remaining - SumCapacity(combo);
    if after > 0 then
      Choice(starter, combo, after, after as real * rate, starter.cost + SumCost(combo) + after as real * rate)
    else
      Choice(starter, combo, 0, 0.0, starter.cost + SumCost(combo) + 0.0)
  }

  /** The cost identity of pricing_logic.py:45-56 that every priced
      candidate satisfies. */
  predicate Accounts(orders: int, rate: real, c: Choice)
  {
    && c.leftover == Max(0, orders - c.starter.capacity - SumCapacity(c.combo))
    && (c.leftover == 0 ==> c.overage == 0.0)
    && c.overage == c.leftover as real * rate
    && c.total == c.starter.cost + SumCost(c.combo) + c.overage
  }

  /** A priced candidate accounts for itself: the uncovered orders are what
      the starter and the prepaid bundles together leave open, never
      negative, charged at the overage rate, and the total is the sum of
      the three parts. */
  lemma EvaluateAccounts(orders: int, starter: Bundle, combo: seq<Bundle>, rate: real)
    ensures Evaluate(orders, starter, combo, rate).starter == starter
    ensures Evaluate(orders, starter, combo, rate).combo == combo
    ensures Accounts(orders, rate, Evaluate(orders, starter, combo, rate))
  {
  }

  /** The smallest positive capacity in the pool, if any (pricing_logic.py:36). */
  function MinPositiveCapacity(pool: seq<Bundle>): (r: Option<nat>)
    ensures r.None? <==> forall i :: 0 <= i < |pool| ==> pool[i].capacity == 0
    ensures r.Some? ==> r.value > 0
  {
    if pool == [] then None
    else
      var rest := MinPositiveCapacity(pool[1..]);
      assert forall i :: 1 <= i < |pool| ==> pool[i] == pool[1..][i - 1];
      if pool[0].capacity == 0 then rest
      else if rest.None? || pool[0].capacity <= rest.value then Some(pool[0].capacity)
      else rest
  }

  /** The minimum is a positive capacity of the pool, and no positive
      capacity is smaller. */
  lemma {:induction false} MinPositiveCapacityIsLeast(pool: seq<Bundle>)
    requires MinPositiveCapacity(pool).Some?
    ensures exists i :: 0 <= i < |pool| && pool[i].capacity == MinPositiveCapacity(pool).value
    ensures forall i :: 0 <= i < |pool| && pool[i].capacity > 0 ==> MinPositiveCapacity(pool).value <= pool[i].capacity
  {
    var rest := MinPositiveCapacity(pool[1..]);
    var m := MinPositiveCapacity(pool).value;
    if rest.Some? {
      MinPositiveCapacityIsLeast(pool[1..]);
      var j :| 0 <= j < |pool[1..]| && pool[1..][j].capacity == rest.value;
      assert pool[j + 1] == pool[1..][j];
    }
    if pool[0].capacity > 0 && (rest.None? || pool[0].capacity <= rest.value) {
      assert pool[0].capacity == m;
    }
    forall i | 0 <= i < |pool| && pool[i].capacity > 0 ensures m <= pool[i].capacity {
      if i > 0 {
        assert pool[i] == pool[1..][i - 1];
      }
    }
  }

  /** How many prepaid bundles are tried for one starter
      (pricing_logic.py:33,36-39): two more than the number of smallest
      bundles that fit in what the starter leaves uncovered, capped at
      `ceiling`. */
  function SearchBound(orders: int, starter: Bundle, smallest: nat, ceiling: nat): (b: nat)
    requires smallest > 0
    ensures b <= ceiling
  {
    Min(Max(0, orders - starter.capacity) / smallest + 2, ceiling)
  }

  /** Below the cap, the bound is two more than the number of smallest
      bundles that fit in what the starter leaves uncovered. */
  lemma SearchBoundFits(orders: int, starter: Bundle, smallest: nat, ceiling: nat)
    requires smallest > 0
    ensures var b := SearchBound(orders, starter, smallest, ceiling);
      b < ceiling ==> (b - 2) * smallest <= Max(0, orders - starter.capacity) < (b - 1) * smallest
  {
    var remaining := Max(0, orders - starter.capacity);
    assert remaining == (remaining / smallest) * smallest + remaining % smallest;
  }

  /** The candidates for one starter and a list of position sequences. */
  function EvaluateAll(orders: int, starter: Bundle, pool: seq<Bundle>, rate: real, idxs: seq<seq<nat>>): (r: seq<Choice>)
    requires forall t :: 0 <= t < |idxs| ==> InRange(idxs[t], 0, |pool|)
    ensures |r| == |idxs|
    decreases |idxs|
  {
    if idxs == [] then []
    else
      EvaluateAll(orders, starter, pool, rate, idxs[..|idxs| - 1])
        + [Evaluate(orders, starter, Pick(pool, idxs[|idxs| - 1]), rate)]
  }

  lemma {:induction false} EvaluateAllAt(orders: int, starter: Bundle, pool: seq<Bundle>, rate: real, idxs: seq<seq<nat>>, t: nat)
    requires forall t :: 0 <= t < |idxs| ==> InRange(idxs[t], 0, |pool|)
    requires t < |idxs|
    ensures EvaluateAll(orders, starter, pool, rate, idxs)[t] == Evaluate(orders, starter, Pick(pool, idxs[t]), rate)
    decreases |idxs|
  {
    if t < |idxs| - 1 {
      var init := idxs[..|idxs| - 1];
      EvaluateAllAt(orders, starter, pool, rate, init, t);
    }
  }

  /** Every sequence of `cs` is a multiset of fewer than `k` positions below `m`. */
  predicate AllFit(cs: seq<seq<nat>>, k: nat, m: nat)
  {
    forall t :: 0 <= t < |cs| ==> |cs[t]| < k && InRange(cs[t], 0, m) && NonDecreasing(cs[t])
  }

  lemma AllFitConcat(xs: seq<seq<nat>>, ys: seq<seq<nat>>, k: nat, m: nat)
    requires AllFit(xs, k, m) && AllFit(ys, k, m)
    ensures AllFit(xs + ys, k, m)
  {
    var zs := xs + ys;
    forall t | |xs| <= t < |zs| ensures zs[t] == ys[t - |xs|] {
    }
  }

  lemma CombosFit(k: nat, m: nat)
    ensures AllFit(Combos(k, 0, m), k + 1, m)
  {
    CombosSound(k, 0, m);
  }

  /** All multisets of sizes `0..k-1` over the pool positions `0..m-1`, size by size. */
  function CombosUpTo(m: nat, k: nat): (r: seq<seq<nat>>)
    ensures AllFit(r, k, m)
    ensures k > 0 ==> |r| > 0
  {
    if k == 0 then []
    else
      var shorter := CombosUpTo(m, k - 1);
      var sized := Combos(k - 1, 0, m);
      CombosFit(k - 1, m);
      AllFitConcat(shorter, sized, k, m);
      shorter + sized
  }

  /** The candidates for one starter, in the order the source tries them. */
  function StarterCandidates(orders: int, starter: Bundle, pool: seq<Bundle>, rate: real, bound: nat): seq<Choice>
  {
    EvaluateAll(orders, starter, pool, rate, CombosUpTo(|pool|, bound + 1))
  }

  /** Every candidate of the whole search, starter by starter. */
  function Candidates(orders: int, starts: seq<Bundle>, pool: seq<Bundle>, rate: real, ceiling: nat, smallest: nat): (r: seq<Choice>)
    requires smallest > 0
    ensures starts != [] ==> r != []
    decreases |starts|
  {
    if starts == [] then []
    else
      var last := starts[|starts| - 1];
      Candidates(orders, starts[..|starts| - 1], pool, rate, ceiling, smallest)
        + StarterCandidates(orders, last, pool, rate, SearchBound(orders, last, smallest, ceiling))
  }

  /** One step of the search: a candidate replaces the best so far only
      when it is strictly cheaper (pricing_logic.py:58-60). */
  function Improve(best: Option<Choice>, c: Choice): Option<Choice>
  {
    if best.None? || c.total < best.value.total then Some(c) else best
  }

  /** What the search keeps after seeing `cs` in order. */
  function FirstCheapest(cs: seq<Choice>): (r: Option<Choice>)
    ensures r.Some? <==> cs != []
    decreases |cs|
  {
    if cs == [] then None else Improve(FirstCheapest(cs[..|cs| - 1]), cs[|cs| - 1])
  }

  /** Position `i` holds a cheapest candidate and nothing before it is as cheap. */
  predicate IsFirstCheapest(cs: seq<Choice>, i: int)
  {
    && 0 <= i < |cs|
    && (forall j :: 0 <= j < |cs| ==> cs[i].total <= cs[j].total)
    && (forall j :: 0 <= j < i ==> cs[i].total < cs[j].total)
  }

  /** The search keeps the first candidate of minimum total. */
  lemma {:induction false} FirstCheapestIsFirstMinimum(cs: seq<Choice>)
    requires cs != []
    ensures exists i :: IsFirstCheapest(cs, i) && FirstCheapest(cs) == Some(cs[i])
    decreases |cs|
  {
    var init := cs[..|cs| - 1];
    var c := cs[|cs| - 1];
    if init == [] {
      assert IsFirstCheapest(cs, 0);
    } else {
      FirstCheapestIsFirstMinimum(init);
      var i :| IsFirstCheapest(init, i) && FirstCheapest(init) == Some(init[i]);
      assert forall j :: 0 <= j < |init| ==> cs[j] == init[j];
      if c.total < init[i].total {
        assert IsFirstCheapest(cs, |cs| - 1);
      } else {
        assert IsFirstCheapest(cs, i);
      }
    }
  }

  /** The result of `calculate_costs`: nothing when there is no starter (the
      infinite sentinel survives), an error when no prepaid bundle has a
      positive capacity, and otherwise the first cheapest candidate. */
  function Optimum(orders: int, starts: seq<Bundle>, pool: seq<Bundle>, rate: real, ceiling: nat): (r: Result<Option<Choice>, SearchError>)
    ensures starts == [] ==> r == Ok(None)
    ensures r.Err? <==> starts != [] && forall i :: 0 <= i < |pool| ==> pool[i].capacity == 0
    ensures starts != [] && r.Ok? ==> r.value.Some?
  {
    if starts == [] then Ok(None)
    else
      match MinPositiveCapacity(pool)
      case None => Err(NoPositiveCapacity)
      case Some(smallest) => Ok(FirstCheapest(Candidates(orders, starts, pool, rate, ceiling, smallest)))
  }

  lemma EvaluateAllSnoc(orders: int, starter: Bundle, pool: seq<Bundle>, rate: real, xs: seq<seq<nat>>, j: nat)
    requires j < |xs| && forall t :: 0 <= t < |xs| ==> InRange(xs[t], 0, |pool|)
    ensures EvaluateAll(orders, starter, pool, rate, xs[..j + 1])
         == EvaluateAll(orders, starter, pool, rate, xs[..j]) + [Evaluate(orders, starter, Pick(pool, xs[j]), rate)]
  {
    assert xs[..j + 1][..j] == xs[..j];
  }

  lemma {:induction false} EvaluateAllConcat(orders: int, starter: Bundle, pool: seq<Bundle>, rate: real, xs: seq<seq<nat>>, ys: seq<seq<nat>>)
    requires forall t :: 0 <= t < |xs| ==> InRange(xs[t], 0, |pool|)
    requires forall t :: 0 <= t < |ys| ==> InRange(ys[t], 0, |pool|)
    ensures EvaluateAll(orders, starter, pool, rate, xs + ys)
         == EvaluateAll(orders, starter, pool, rate, xs) + EvaluateAll(orders, starter, pool, rate, ys)
    decreases |ys|
  {
    if ys != [] {
      var zs := xs + ys;
      var ys' := ys[..|ys| - 1];
      assert zs[..|zs| - 1] == xs + ys';
      assert zs[|zs| - 1] == ys[|ys| - 1];
      EvaluateAllConcat(orders, starter, pool, rate, xs, ys');
    } else {
      assert xs + ys == xs;
    }
  }

  lemma CombosInPool(k: nat, m: nat)
    ensures forall t :: 0 <= t < |Combos(k, 0, m)| ==> InRange(Combos(k, 0, m)[t], 0, m)
  {
    CombosSound(k, 0, m);
  }

  lemma ConcatAssociates<T>(a: seq<T>, b: seq<T>, c: seq<T>)
    ensures a + b + c == a + (b + c)
  {
  }

  lemma FirstCheapestSnoc(cs: seq<Choice>, c: Choice)
    ensures FirstCheapest(cs + [c]) == Improve(FirstCheapest(cs), c)
  {
    assert (cs + [c])[..|cs|] == cs;
  }

  lemma CandidatesSnoc(orders: int, starts: seq<Bundle>, pool: seq<Bundle>, rate: real, ceiling: nat, smallest: nat, i: nat)
    requires smallest > 0 && i < |starts|
    ensures Candidates(orders, starts[..i + 1], pool, rate, ceiling, smallest)
         == Candidates(orders, starts[..i], pool, rate, ceiling, smallest)
            + StarterCandidates(orders, starts[i], pool, rate, SearchBound(orders, starts[i], smallest, ceiling))
  {
    assert starts[..i + 1][..i] == starts[..i];
  }

  /** The innermost loop (pricing_logic.py:44-60): every multiset of one
      size, priced and compared with the best so far. */
  method SearchSize(orders: int, starter: Bundle, pool: seq<Bundle>, rate: real, combos: seq<seq<nat>>,
                    best0: Option<Choice>, ghost seen0: seq<Choice>)
    returns (best: Option<Choice>, ghost seen: seq<Choice>)
    requires forall t :: 0 <= t < |combos| ==> InRange(combos[t], 0, |pool|)
    requires best0 == FirstCheapest(seen0)
    ensures seen == seen0 + EvaluateAll(orders, starter, pool, rate, combos)
    ensures best == FirstCheapest(seen)
  {
    best, seen := best0, seen0;
    for j := 0 to |combos|
      invariant seen == seen0 + EvaluateAll(orders, starter, pool, rate, combos[..j])
      invariant best == FirstCheapest(seen)
    {
      var choice := Evaluate(orders, starter, Pick(pool, combos[j]), rate);
      SizeStep(orders, starter, pool, rate, combos, j, seen0, seen);
      if best.None? || choice.total < best.value.total {
        best := Some(choice);
      }
      seen := seen + [choice];
    }
    assert combos[..|combos|] == combos;
  }

  /** One turn of the innermost loop, in terms of what has been seen. */
  lemma SizeStep(orders: int, starter: Bundle, pool: seq<Bundle>, rate: real, combos: seq<seq<nat>>, j: nat,
                 seen0: seq<Choice>, seen: seq<Choice>)
    requires j < |combos| && forall t :: 0 <= t < |combos| ==> InRange(combos[t], 0, |pool|)
    requires seen == seen0 + EvaluateAll(orders, starter, pool, rate, combos[..j])
    ensures var c := Evaluate(orders, starter, Pick(pool, combos[j]), rate);
      && seen + [c] == seen0 + EvaluateAll(orders, starter, pool, rate, combos[..j + 1])
      && FirstCheapest(seen + [c]) == Improve(FirstCheapest(seen), c)
  {
    var c := Evaluate(orders, starter, Pick(pool, combos[j]), rate);
    EvaluateAllSnoc(orders, starter, pool, rate, combos, j);
    ConcatAssociates(seen0, EvaluateAll(orders, starter, pool, rate, combos[..j]), [c]);
    FirstCheapestSnoc(seen, c);
  }

  /** The candidates tried for one starter, size by size
      (pricing_logic.py:42-44). */
  method SearchStarter(orders: int, starter: Bundle, pool: seq<Bundle>, rate: real, bound: nat,
                       best0: Option<Choice>, ghost seen0: seq<Choice>)
    returns (best: Option<Choice>, ghost seen: seq<Choice>)
    requires best0 == FirstCheapest(seen0)
    ensures seen == seen0 + StarterCandidates(orders, starter, pool, rate, bound)
    ensures best == FirstCheapest(seen)
  {
    best, seen := best0, seen0;
    ghost var tried: seq<Choice> := [];
    for k := 0 to bound + 1
      invariant tried == EvaluateAll(orders, starter, pool, rate, CombosUpTo(|pool|, k))
      invariant seen == seen0 + tried
      invariant best == FirstCheapest(seen)
    {
      var combos := Combos(k, 0, |pool|);
      CombosInPool(k, |pool|);
      ghost var sized;
      best, sized := SearchSize(orders, starter, pool, rate, combos, best, seen);
      ghost var more := EvaluateAll(orders, starter, pool, rate, combos);
      EvaluateAllConcat(orders, starter, pool, rate, CombosUpTo(|pool|, k), combos);
      ConcatAssociates(seen0, tried, more);
      tried := tried + more;
      seen := seen0 + tried;
    }
  }

  /** The search of pricing_logic.py:25-62: starter by starter, keeping
      the first strictly cheapest candidate. */
  method CalculateCosts(orders: int, starts: seq<Bundle>, pool: seq<Bundle>, rate: real, ceiling: nat)
    returns (r: Result<Option<Choice>, SearchError>)
    ensures r == Optimum(orders, starts, pool, rate, ceiling)
  {
    // The source takes this minimum afresh for every starter; it is the
    // same each time, so it is taken once, and only when a starter exists.
    var smallest := MinPositiveCapacity(pool);
    if starts != [] && smallest.None? {
      return Err(NoPositiveCapacity);
    }
    var least: nat := if smallest.Some? then smallest.value else 1;
    var best: Option<Choice> := None;
    ghost var seen: seq<Choice> := [];
    for i := 0 to |starts|
      invariant seen == Candidates(orders, starts[..i], pool, rate, ceiling, least)
      invariant best == FirstCheapest(seen)
    {
      var bound := SearchBound(orders, starts[i], least, ceiling);
      CandidatesSnoc(orders, starts, pool, rate, ceiling, least, i);
      best, seen := SearchStarter(orders, starts[i], pool, rate, bound, best, seen);
    }
    assert starts[..|starts|] == starts;
    r := Ok(best);
  }

  // ---------------------------------------------------------------------
  // What the search covers, and what its result is.

  /** Starter `t` with the prepaid multiset `idx` is in the space the source
      searches: at most `SearchBound` bundles for that starter. */
  predicate InSearchSpace(orders: int, starts: seq<Bundle>, pool: seq<Bundle>, ceiling: nat, smallest: nat, t: int, idx: seq<nat>)
    requires smallest > 0
  {
    && 0 <= t < |starts|
    && InRange(idx, 0, |pool|)
    && NonDecreasing(idx)
    && |idx| <= SearchBound(orders, starts[t], smallest, ceiling)
  }

  lemma EvaluateAllMember(orders: int, starter: Bundle, pool: seq<Bundle>, rate: real, idxs: seq<seq<nat>>, c: Choice)
    requires forall t :: 0 <= t < |idxs| ==> InRange(idxs[t], 0, |pool|)
    requires c in EvaluateAll(orders, starter, pool, rate, idxs)
    ensures exists p :: 0 <= p < |idxs| && c == Evaluate(orders, starter, Pick(pool, idxs[p]), rate)
  {
    var r := EvaluateAll(orders, starter, pool, rate, idxs);
    var p :| 0 <= p < |r| && r[p] == c;
    EvaluateAllAt(orders, starter, pool, rate, idxs, p);
  }

  lemma EvaluateAllHas(orders: int, starter: Bundle, pool: seq<Bundle>, rate: real, idxs: seq<seq<nat>>, x: seq<nat>)
    requires forall t :: 0 <= t < |idxs| ==> InRange(idxs[t], 0, |pool|)
    requires x in idxs
    ensures InRange(x, 0, |pool|)
    ensures Evaluate(orders, starter, Pick(pool, x), rate) in EvaluateAll(orders, starter, pool, rate, idxs)
  {
    var p :| 0 <= p < |idxs| && idxs[p] == x;
    EvaluateAllAt(orders, starter, pool, rate, idxs, p);
  }

  /** Every candidate the search prices comes from its search space. */
  lemma {:induction false} CandidatesSound(orders: int, starts: seq<Bundle>, pool: seq<Bundle>, rate: real, ceiling: nat, smallest: nat, c: Choice)
    requires smallest > 0
    requires c in Candidates(orders, starts, pool, rate, ceiling, smallest)
    ensures exists t, idx :: InSearchSpace(orders, starts, pool, ceiling, smallest, t, idx)
                             && c == Evaluate(orders, starts[t], Pick(pool, idx), rate)
    decreases |starts|, 1
  {
    var init := starts[..|starts| - 1];
    var last := starts[|starts| - 1];
    var bound := SearchBound(orders, last, smallest, ceiling);
    assert Candidates(orders, starts, pool, rate, ceiling, smallest)
        == Candidates(orders, init, pool, rate, ceiling, smallest) + StarterCandidates(orders, last, pool, rate, bound);
    if c in Candidates(orders, init, pool, rate, ceiling, smallest) {
      EarlierStarterSound(orders, starts, pool, rate, ceiling, smallest, c);
    } else {
      LastStarterSound(orders, starts, pool, rate, ceiling, smallest, c);
    }
  }

  lemma {:induction false} EarlierStarterSound(orders: int, starts: seq<Bundle>, pool: seq<Bundle>, rate: real, ceiling: nat, smallest: nat, c: Choice)
    requires smallest > 0 && starts != []
    requires c in Candidates(orders, starts[..|starts| - 1], pool, rate, ceiling, smallest)
    ensures exists t, idx :: InSearchSpace(orders, starts, pool, ceiling, smallest, t, idx)
                             && c == Evaluate(orders, starts[t], Pick(pool, idx), rate)
    decreases |starts|, 0
  {
    var init := starts[..|starts| - 1];
    CandidatesSound(orders, init, pool, rate, ceiling, smallest, c);
    var t, idx :| InSearchSpace(orders, init, pool, ceiling, smallest, t, idx)
                  && c == Evaluate(orders, init[t], Pick(pool, idx), rate);
    assert init[t] == starts[t];
    assert InSearchSpace(orders, starts, pool, ceiling, smallest, t, idx);
  }

  lemma LastStarterSound(orders: int, starts: seq<Bundle>, pool: seq<Bundle>, rate: real, ceiling: nat, smallest: nat, c: Choice)
    requires smallest > 0 && starts != []
    requires c in StarterCandidates(orders, starts[|starts| - 1], pool, rate, SearchBound(orders, starts[|starts| - 1], smallest, ceiling))
    ensures exists t, idx :: InSearchSpace(orders, starts, pool, ceiling, smallest, t, idx)
                             && c == Evaluate(orders, starts[t], Pick(pool, idx), rate)
  {
    var last := starts[|starts| - 1];
    var xs := CombosUpTo(|pool|, SearchBound(orders, last, smallest, ceiling) + 1);
    EvaluateAllMember(orders, last, pool, rate, xs, c);
    var p :| 0 <= p < |xs| && c == Evaluate(orders, last, Pick(pool, xs[p]), rate);
    assert InSearchSpace(orders, starts, pool, ceiling, smallest, |starts| - 1, xs[p]);
  }

  lemma {:induction false} CombosUpToComplete(m: nat, k: nat, idx: seq<nat>)
    requires InRange(idx, 0, m) && NonDecreasing(idx) && |idx| < k
    ensures idx in CombosUpTo(m, k)
    decreases k
  {
    if |idx| == k - 1 {
      CombosComplete(idx, 0, m);
    } else {
      CombosUpToComplete(m, k - 1, idx);
    }
  }

  /** Every member of the search space is priced by the search. */
  lemma {:induction false} CandidatesComplete(orders: int, starts: seq<Bundle>, pool: seq<Bundle>, rate: real, ceiling: nat, smallest: nat, t: int, idx: seq<nat>)
    requires smallest > 0
    requires InSearchSpace(orders, starts, pool, ceiling, smallest, t, idx)
    ensures Evaluate(orders, starts[t], Pick(pool, idx), rate) in Candidates(orders, starts, pool, rate, ceiling, smallest)
    decreases |starts|, 1
  {
    if t < |starts| - 1 {
      EarlierStarterComplete(orders, starts, pool, rate, ceiling, smallest, t, idx);
    } else {
      LastStarterComplete(orders, starts, pool, rate, ceiling, smallest, idx);
    }
  }

  lemma {:induction false} EarlierStarterComplete(orders: int, starts: seq<Bundle>, pool: seq<Bundle>, rate: real, ceiling: nat, smallest: nat, t: int, idx: seq<nat>)
    requires smallest > 0
    requires InSearchSpace(orders, starts, pool, ceiling, smallest, t, idx) && t < |starts| - 1
    ensures Evaluate(orders, starts[t], Pick(pool, idx), rate) in Candidates(orders, starts, pool, rate, ceiling, smallest)
    decreases |starts|, 0
  {
    var init := starts[..|starts| - 1];
    assert init[t] == starts[t];
    assert InSearchSpace(orders, init, pool, ceiling, smallest, t, idx);
    CandidatesComplete(orders, init, pool, rate, ceiling, smallest, t, idx);
  }

  lemma LastStarterComplete(orders: int, starts: seq<Bundle>, pool: seq<Bundle>, rate: real, ceiling: nat, smallest: nat, idx: seq<nat>)
    requires smallest > 0
    requires InSearchSpace(orders, starts, pool, ceiling, smallest, |starts| - 1, idx)
    ensures Evaluate(orders, starts[|starts| - 1], Pick(pool, idx), rate) in Candidates(orders, starts, pool, rate, ceiling, smallest)
  {
    var last := starts[|starts| - 1];
    var bound := SearchBound(orders, last, smallest, ceiling);
    CombosUpToComplete(|pool|, bound + 1, idx);
    EvaluateAllHas(orders, last, pool, rate, CombosUpTo(|pool|, bound + 1), idx);
  }

  /** Every candidate is a purchase from the catalogue that obeys the cost identity. */
  lemma CandidateAccounts(orders: int, starts: seq<Bundle>, pool: seq<Bundle>, rate: real, ceiling: nat, smallest: nat, c: Choice)
    requires smallest > 0
    requires c in Candidates(orders, starts, pool, rate, ceiling, smallest)
    ensures c.starter in starts
    ensures |c.combo| <= SearchBound(orders, c.starter, smallest, ceiling)
    ensures forall b :: b in c.combo ==> b in pool
    ensures Accounts(orders, rate, c)
  {
    CandidatesSound(orders, starts, pool, rate, ceiling, smallest, c);
    var t, idx :| InSearchSpace(orders, starts, pool, ceiling, smallest, t, idx)
                  && c == Evaluate(orders, starts[t], Pick(pool, idx), rate);
    EvaluateAccounts(orders, starts[t], Pick(pool, idx), rate);
  }

  /** The returned combination is a real purchase: a starter from the list
      and at most `SearchBound` (so at most `ceiling`) bundles from the
      pool, and its fields obey the cost identity. */
  lemma OptimumAccounts(orders: int, starts: seq<Bundle>, pool: seq<Bundle>, rate: real, ceiling: nat)
    requires starts != [] && Optimum(orders, starts, pool, rate, ceiling).Ok?
    ensures MinPositiveCapacity(pool).Some?
    ensures var c := Optimum(orders, starts, pool, rate, ceiling).value.value;
      && c.starter in starts
      && |c.combo| <= SearchBound(orders, c.starter, MinPositiveCapacity(pool).value, ceiling) <= ceiling
      && (forall b :: b in c.combo ==> b in pool)
      && Accounts(orders, rate, c)
  {
    var smallest := MinPositiveCapacity(pool).value;
    var cs := Candidates(orders, starts, pool, rate, ceiling, smallest);
    FirstCheapestIsFirstMinimum(cs);
    var i :| IsFirstCheapest(cs, i) && FirstCheapest(cs) == Some(cs[i]);
    CandidateAccounts(orders, starts, pool, rate, ceiling, smallest, cs[i]);
  }

  /** No combination of the search space is cheaper than the result. This
      is minimality over the enumerated space only: the bound is a
      heuristic, so cheaper purchases with more prepaid bundles may exist. */
  lemma OptimumIsCheapest(orders: int, starts: seq<Bundle>, pool: seq<Bundle>, rate: real, ceiling: nat, t: int, idx: seq<nat>)
    requires MinPositiveCapacity(pool).Some?
    requires InSearchSpace(orders, starts, pool, ceiling, MinPositiveCapacity(pool).value, t, idx)
    ensures Optimum(orders, starts, pool, rate, ceiling).Ok?
    ensures Optimum(orders, starts, pool, rate, ceiling).value.Some?
    ensures Optimum(orders, starts, pool, rate, ceiling).value.value.total
         <= Evaluate(orders, starts[t], Pick(pool, idx), rate).total
  {
    var smallest := MinPositiveCapacity(pool).value;
    var cs := Candidates(orders, starts, pool, rate, ceiling, smallest);
    CandidatesComplete(orders, starts, pool, rate, ceiling, smallest, t, idx);
    FirstCheapestIsFirstMinimum(cs);
    var i :| IsFirstCheapest(cs, i) && FirstCheapest(cs) == Some(cs[i]);
    var p :| 0 <= p < |cs| && cs[p] == Evaluate(orders, starts[t], Pick(pool, idx), rate);
  }

  /** Ties are broken by enumeration order: the result is the first
      candidate of minimum total in the order starter, then number of
      prepaid bundles, then the library's lexicographic order
      (`Combinations.CombosLexSorted`). */
  lemma OptimumIsFirstCheapest(orders: int, starts: seq<Bundle>, pool: seq<Bundle>, rate: real, ceiling: nat)
    returns (i: nat)
    requires starts != [] && MinPositiveCapacity(pool).Some?
    ensures IsFirstCheapest(Candidates(orders, starts, pool, rate, ceiling, MinPositiveCapacity(pool).value), i)
    ensures Optimum(orders, starts, pool, rate, ceiling)
         == Ok(Some(Candidates(orders, starts, pool, rate, ceiling, MinPositiveCapacity(pool).value)[i]))
  {
    var cs := Candidates(orders, starts, pool, rate, ceiling, MinPositiveCapacity(pool).value);
    FirstCheapestIsFirstMinimum(cs);
    i :| IsFirstCheapest(cs, i) && FirstCheapest(cs) == Some(cs[i]);
  }
}
