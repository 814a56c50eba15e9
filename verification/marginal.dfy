/** calculate_marginal_cost of pricing_logic.py:378-396: the optimum at
    step, 2·step, … up to the order count, and the change in the optimum
    over each step. */
module Marginal {
  import opened Common
  import opened Bundles
  import opened Search

  /** One row of the sweep. A total of None stands for the infinite
      sentinel the optimiser returns when no starter exists; a step cost
      of None for the difference of two such totals, which is not a
      number. */
  datatype Row = Row(orders: int, stepCost: Option<real>, total: Option<real>)

  /** The total of an optimiser result; None when nothing was found. */
  function TotalOf(best: Option<Choice>): (t: Option<real>)
    ensures t.Some? <==> best.Some?
    ensures best.Some? ==> t.value == best.value.total
  {
    match best
    case None => None
    case Some(c) => Some(c.total)
  }

  /** Subtraction of two totals; with a missing one the result is not a number. */
  function Difference(a: Option<real>, b: Option<real>): (d: Option<real>)
    ensures d.Some? <==> a.Some? && b.Some?
    ensures d.Some? ==> d.value + b.value == a.value
  {
    if a.Some? && b.Some? then Some(a.value - b.value) else None
  }

  /** No prepaid bundle has positive capacity. */
  predicate NoCapacity(pool: seq<Bundle>)
  {
    forall i :: 0 <= i < |pool| ==> pool[i].capacity == 0
  }

  /** Whether Python's range(start, stop, step) still continues at `order`. */
  predicate Continues(order: int, stop: int, step: int)
  {
    if step > 0 then order < stop else order > stop
  }

  /** How many of 0, size, 2·size, … fall below `n`: the ceiling of n / size. */
  function CountBelow(n: int, size: nat): nat
    requires size >= 1
    decreases n
  {
    if n > 0 then 1 + CountBelow(n - size, size) else 0
  }

  lemma {:induction false} CountBelowIsCeiling(n: int, size: nat, t: nat)
    requires size >= 1
    ensures t < CountBelow(n, size) <==> t * size < n
    decreases t
  {
    if t > 0 && n > 0 {
      CountBelowIsCeiling(n - size, size, t - 1);
      assert (t - 1) * size == t * size - size;
    }
  }

  /** How many rows the sweep has: the length of range(step, orders + step, step). */
  function SweepLength(orders: int, step: int): nat
    requires step != 0
  {
    if step > 0 then CountBelow(orders, step) else CountBelow(-orders, -step)
  }

  /** The t-th value of range(step, …, step), counting from zero. */
  function RangeValue(t: nat, step: int): int
  {
    if t == 0 then step else RangeValue(t - 1, step) + step
  }

  lemma {:induction false} RangeValueIs(t: nat, step: int)
    ensures RangeValue(t, step) == (t + 1) * step
  {
    if t > 0 {
      RangeValueIs(t - 1, step);
    }
  }

  /** The range stops after SweepLength values. */
  lemma SweepLengthIsRange(orders: int, step: int, t: nat, order: int)
    requires step != 0 && order == RangeValue(t, step)
    ensures t < SweepLength(orders, step) <==> Continues(order, orders + step, step)
  {
    RangeValueIs(t, step);
    if step > 0 {
      CountBelowIsCeiling(orders, step, t);
    } else {
      CountBelowIsCeiling(-orders, -step, t);
      assert t * (-step) == -(t * step);
    }
  }

  /** The total of a call of the optimiser (None also when it fails). */
  function TotalIn(o: Result<Option<Choice>, SearchError>): Option<real>
  {
    match o
    case Ok(best) => TotalOf(best)
    case Err(_) => None
  }

  /** The optimum's total at an order count. */
  function TotalAt(orders: int, starts: seq<Bundle>, pool: seq<Bundle>, rate: real): Option<real>
  {
    TotalIn(Optimum(orders, starts, pool, rate, DEFAULT_CEILING))
  }

  /** Whether a total exists does not depend on the order count. */
  lemma TotalAtDefined(a: int, b: int, starts: seq<Bundle>, pool: seq<Bundle>, rate: real)
    ensures TotalAt(a, starts, pool, rate).Some? == TotalAt(b, starts, pool, rate).Some?
  {
  }

  /** The optimum's total as a function of the order count. */
  function Totals(starts: seq<Bundle>, pool: seq<Bundle>, rate: real): int -> Option<real>
  {
    n => TotalAt(n, starts, pool, rate)
  }

  /** The row for one order count (pricing_logic.py:384-394): the total
      there, and its change since the order count `previous`. */
  function RowAt(order: int, previous: int, cost: int -> Option<real>): (row: Row)
    ensures row.orders == order
  {
    Row(order, Difference(cost(order), cost(previous)), cost(order))
  }

  /** The rows are those of step, 2·step, … in turn, each against the
      order count one step back. */
  predicate SweepRows(rows: seq<Row>, step: int, cost: int -> Option<real>)
  {
    forall t :: 0 <= t < |rows| ==>
      rows[t].orders == (t + 1) * step && rows[t] == RowAt(rows[t].orders, rows[t].orders - step, cost)
  }

  /** The rows the sweep produces for its first `n` order counts. */
  function Sweep(n: nat, step: int, cost: int -> Option<real>): (rows: seq<Row>)
    ensures |rows| == n
  {
    if n == 0 then []
    else
      var order := RangeValue(n - 1, step);
      Sweep(n - 1, step, cost) + [RowAt(order, order - step, cost)]
  }

  lemma {:induction false} SweepIsSweepRows(n: nat, step: int, cost: int -> Option<real>)
    ensures SweepRows(Sweep(n, step, cost), step, cost)
  {
    if n > 0 {
      SweepIsSweepRows(n - 1, step, cost);
      var rows := Sweep(n, step, cost);
      var init := Sweep(n - 1, step, cost);
      forall t | 0 <= t < n
        ensures rows[t].orders == (t + 1) * step
        ensures rows[t] == RowAt(rows[t].orders, rows[t].orders - step, cost)
      {
        RangeValueIs(t, step);
        if t < n - 1 {
          assert rows[t] == init[t];
        }
      }
    }
  }

  /** Sum of optional values; missing when any term is. */
  function SumSteps(rows: seq<Row>): Option<real>
  {
    if rows == [] then Some(0.0)
    else
      var init := SumSteps(rows[..|rows| - 1]);
      var last := rows[|rows| - 1].stepCost;
      if init.Some? && last.Some? then Some(init.value + last.value) else None
  }

  /** Rows whose step costs are the differences of neighbouring totals,
      the first taken against `first`. */
  predicate Chained(rows: seq<Row>, first: Option<real>)
  {
    && (rows != [] ==> rows[0].stepCost == Difference(rows[0].total, first))
    && forall t :: 0 < t < |rows| ==> rows[t].stepCost == Difference(rows[t].total, rows[t - 1].total)
  }

  /** Either every total exists or none does. */
  predicate Uniform(rows: seq<Row>, first: Option<real>)
  {
    forall t :: 0 <= t < |rows| ==> rows[t].total.Some? == first.Some?
  }

  lemma {:induction false} Telescope(rows: seq<Row>, first: Option<real>)
    requires Chained(rows, first) && Uniform(rows, first) && rows != []
    ensures SumSteps(rows) == Difference(rows[|rows| - 1].total, first)
  {
    var n := |rows|;
    if n > 1 {
      var init := rows[..n - 1];
      assert Chained(init, first) by {
        forall t | 0 < t < |init|
          ensures init[t].stepCost == Difference(init[t].total, init[t - 1].total)
        {
          assert init[t] == rows[t] && init[t - 1] == rows[t - 1];
        }
      }
      Telescope(init, first);
      assert init[n - 2] == rows[n - 2];
    } else {
      assert rows[..0] == [];
    }
  }

  /** Neighbouring rows lie one step apart. */
  lemma OneStepApart(t: nat, step: int)
    ensures t * step == (t + 1) * step - step
  {
  }

  /** The step costs telescope: together they are the change from the
      optimum at zero orders to the optimum at the last row. */
  lemma StepCostsTelescope(n: nat, starts: seq<Bundle>, pool: seq<Bundle>, rate: real, step: int)
    requires n > 0
    ensures var rows := Sweep(n, step, Totals(starts, pool, rate));
      SumSteps(rows) == Difference(rows[n - 1].total, TotalAt(0, starts, pool, rate))
  {
    var cost := Totals(starts, pool, rate);
    var rows := Sweep(n, step, cost);
    SweepIsSweepRows(n, step, cost);
    forall n ensures cost(n).Some? == cost(0).Some? {
      TotalAtDefined(n, 0, starts, pool, rate);
    }
    SweepTelescopes(rows, step, cost);
  }

  /** The same for any total that is either everywhere or nowhere defined. */
  lemma SweepTelescopes(rows: seq<Row>, step: int, cost: int -> Option<real>)
    requires SweepRows(rows, step, cost) && rows != []
    requires forall n :: cost(n).Some? == cost(0).Some?
    ensures SumSteps(rows) == Difference(rows[|rows| - 1].total, cost(0))
  {
    SweepChained(rows, step, cost);
    Telescope(rows, cost(0));
  }

  lemma SweepChained(rows: seq<Row>, step: int, cost: int -> Option<real>)
    requires SweepRows(rows, step, cost)
    ensures Chained(rows, cost(0))
  {
    if rows != [] {
      OneStepApart(0, step);
    }
    forall t | 0 < t < |rows|
      ensures rows[t].stepCost == Difference(rows[t].total, rows[t - 1].total)
    {
      OneStepApart(t, step);
      assert rows[t - 1].orders == rows[t].orders - step;
    }
  }

  /** One more row of the loop continues the sweep. */
  lemma SweepSnoc(rows: seq<Row>, row: Row, step: int, cost: int -> Option<real>, order: int, previous: int)
    requires rows == Sweep(|rows|, step, cost) && order == RangeValue(|rows|, step)
    requires previous == order - step && row == RowAt(order, previous, cost)
    ensures rows + [row] == Sweep(|rows + [row]|, step, cost)
    ensures order + step == RangeValue(|rows + [row]|, step)
  {
  }

  /** The body of the sweep's loop (pricing_logic.py:384-394): the optimum
      at `order` and at `previous`, one step back, and their difference. */
  method SweepRow(order: int, previous: int, starts: seq<Bundle>, pool: seq<Bundle>, rate: real)
    returns (r: Result<Row, SearchError>)
    ensures r.Err? <==> starts != [] && NoCapacity(pool)
    ensures r.Ok? ==> r.value == RowAt(order, previous, Totals(starts, pool, rate))
  {
    var atOrder := CalculateCosts(order, starts, pool, rate, DEFAULT_CEILING);
    if atOrder.Err? {
      return Err(atOrder.error);
    }
    var atPrevious := CalculateCosts(previous, starts, pool, rate, DEFAULT_CEILING);
    // the second call fails exactly when the first does
    assert atPrevious.Ok?;
    var costAtOrder := TotalOf(atOrder.value);
    var costAtPrevious := TotalOf(atPrevious.value);
    var marginalCost := Difference(costAtOrder, costAtPrevious);
    r := Ok(Row(order, marginalCost, costAtOrder));
    TotalsAt(order, previous, starts, pool, rate, atOrder, atPrevious);
  }

  /** The row built from two successful optimiser calls is the row of the sweep. */
  lemma TotalsAt(order: int, previous: int, starts: seq<Bundle>, pool: seq<Bundle>, rate: real,
                 atOrder: Result<Option<Choice>, SearchError>, atPrevious: Result<Option<Choice>, SearchError>)
    requires atOrder == Optimum(order, starts, pool, rate, DEFAULT_CEILING) && atOrder.Ok?
    requires atPrevious == Optimum(previous, starts, pool, rate, DEFAULT_CEILING) && atPrevious.Ok?
    ensures RowAt(order, previous, Totals(starts, pool, rate))
         == Row(order, Difference(TotalOf(atOrder.value), TotalOf(atPrevious.value)), TotalOf(atOrder.value))
  {
    var cost := Totals(starts, pool, rate);
    assert cost(order) == TotalIn(atOrder);
    assert cost(previous) == TotalIn(atPrevious);
  }

  /** Why the sweep stops: a zero step, which Python's range refuses, or
      a failing optimiser call. */
  datatype SweepError = ZeroStep | Optimiser(cause: SearchError)

  /** calculate_marginal_cost of pricing_logic.py:378-396. A prepaid list
      without positive capacity makes the first optimiser call fail, and the
      failure passes out of the sweep. */
  method MarginalCosts(orders: int, starts: seq<Bundle>, pool: seq<Bundle>, rate: real, step: int)
    returns (r: Result<seq<Row>, SweepError>)
    ensures r == Err(ZeroStep) <==> step == 0
    ensures r.Err? <==> step == 0 || (SweepLength(orders, step) > 0 && starts != [] && NoCapacity(pool))
    ensures r.Ok? ==> r.value == Sweep(SweepLength(orders, step), step, Totals(starts, pool, rate))
  {
    if step == 0 {
      return Err(ZeroStep);
    }
    var results: seq<Row> := [];
    var order := step;
    SweepLengthIsRange(orders, step, 0, order);
    while Continues(order, orders + step, step)
      invariant order == RangeValue(|results|, step)
      invariant |results| <= SweepLength(orders, step)
      invariant Continues(order, orders + step, step) <==> |results| < SweepLength(orders, step)
      invariant results == Sweep(|results|, step, Totals(starts, pool, rate))
      invariant |results| > 0 ==> !(starts != [] && NoCapacity(pool))
      decreases SweepLength(orders, step) - |results|
    {
      var previous := order - step;
      var row := SweepRow(order, previous, starts, pool, rate);
      if row.Err? {
        return Err(Optimiser(row.error));
      }
      SweepSnoc(results, row.value, step, Totals(starts, pool, rate), order, previous);
      results := results + [row.value];
      order := order + step;
      SweepLengthIsRange(orders, step, |results|, order);
    }
    r := Ok(results);
  }
}
