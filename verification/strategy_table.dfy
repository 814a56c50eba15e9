/** The strategy table of price_tool.py:196-266: one row for the small
    starter's family and one for the big starter's, sorted by cost. */
module StrategyTable {
  import opened Bundles
  import opened Greedy

  /** A table row: the strategy and the title the table shows for it, the
      cost, and the bundles it lists. */
  datatype Row = Row(strategy: Strategy, title: string, cost: real, bundles: seq<Line>)

  function TableLabel(s: Strategy): (l: string)
    ensures s != BigStartPrepaids ==> l == Label(s)
    ensures s == BigStartPrepaids <==> l == "Big Start + Prepaids + Overage"
  {
    if s == BigStartPrepaids then "Big Start + Prepaids + Overage" else Label(s)
  }

  /** Whether the table may show a strategy for this many orders: a
      starter alone only when it holds every order, a plan with prepaids
      only when it does not. */
  predicate Shown(p: Prices, orders: int, s: Strategy)
  {
    match s
    case SmallStart => orders <= p.smallStartOrders
    case SmallStartPrepaids => orders > p.smallStartOrders
    case BigStart => orders <= p.bigStartOrders
    case BigStartPrepaids => orders > p.bigStartOrders
  }

  /** A row is honest when its cost is what its bundles cost and its
      bundles (with any overage) hold every order; the big plan with
      prepaids lists exactly the order count. */
  predicate Honest(p: Prices, orders: int, row: Row)
  {
    && Shown(p, orders, row.strategy)
    && row.cost == LinesCost(p, row.bundles)
    && LinesOrders(p, row.bundles) >= orders
    && (row.strategy == BigStartPrepaids ==> LinesOrders(p, row.bundles) == orders)
  }

  /** The small family's row (price_tool.py:204-226). */
  method SmallRow(p: Prices, orders: int) returns (row: Row)
    requires Valid(p)
    ensures Honest(p, orders, row) && SmallFamily(row.strategy)
    ensures row.title == TableLabel(row.strategy)
    ensures orders <= p.smallStartOrders ==> row.bundles == [Start(Small)]
    ensures orders > p.smallStartOrders ==>
      row.bundles == [Start(Small), Prepaids(Small, SmallPrepaids(p, orders))]
    ensures orders > p.smallStartOrders ==> row.cost == SmallPlanCost(p, orders)
    ensures orders <= p.smallStartOrders ==> row.cost == p.smallStartCost
  {
    if orders <= p.smallStartOrders {
      row := Row(SmallStart, TableLabel(SmallStart), p.smallStartCost, [Start(Small)]);
      UnfoldLines(p, row.bundles);
    } else {
      var remaining := orders - p.smallStartOrders;
      var prepaidsNeeded := remaining / p.smallPrepaidOrders;
      if remaining % p.smallPrepaidOrders > 0 {
        prepaidsNeeded := prepaidsNeeded + 1;
      }
      SmallSplit(p, orders, remaining, prepaidsNeeded);
      var cost := p.smallStartCost + prepaidsNeeded as real * p.smallPrepaidCost;
      row := Row(SmallStartPrepaids, TableLabel(SmallStartPrepaids), cost, [Start(Small), Prepaids(Small, prepaidsNeeded)]);
      UnfoldLines(p, row.bundles);
    }
  }

  /** The big family's row (price_tool.py:228-256). */
  method BigRow(p: Prices, orders: int) returns (row: Row)
    requires Valid(p)
    ensures Honest(p, orders, row) && !SmallFamily(row.strategy)
    ensures row.title == TableLabel(row.strategy)
    ensures orders <= p.bigStartOrders ==> row.bundles == [Start(Big)]
    ensures orders > p.bigStartOrders ==>
      row.bundles == [Start(Big), Prepaids(Big, BigPrepaids(p, orders))]
                     + (if BigLeftover(p, orders) > 0 then [Overage(BigLeftover(p, orders))] else [])
    ensures orders > p.bigStartOrders ==> row.cost == BigPlanCost(p, orders)
    ensures orders <= p.bigStartOrders ==> row.cost == p.bigStartCost
  {
    if orders <= p.bigStartOrders {
      row := Row(BigStart, TableLabel(BigStart), p.bigStartCost, [Start(Big)]);
      UnfoldLines(p, row.bundles);
    } else {
      var remaining := orders - p.bigStartOrders;
      var prepaidsNeeded := remaining / p.bigPrepaidOrders;
      var remainingAfterPrepaids := remaining - prepaidsNeeded * p.bigPrepaidOrders;
      BigSplit(p, orders, remaining, prepaidsNeeded, remainingAfterPrepaids);
      var cost := p.bigStartCost + prepaidsNeeded as real * p.bigPrepaidCost;
      if remainingAfterPrepaids > 0 {
        cost := cost + remainingAfterPrepaids as real * p.overageCost;
        row := Row(BigStartPrepaids, TableLabel(BigStartPrepaids), cost, [Start(Big), Prepaids(Big, prepaidsNeeded), Overage(remainingAfterPrepaids)]);
        UnfoldLines(p, row.bundles);
      } else {
        row := Row(BigStartPrepaids, TableLabel(BigStartPrepaids), cost, [Start(Big), Prepaids(Big, prepaidsNeeded)]);
        UnfoldLines(p, row.bundles);
      }
    }
  }

  /** The small row's prepaid count is the rounded-up count of the greedy
      quote, and the prepaids hold what the starter leaves. */
  lemma SmallSplit(p: Prices, orders: int, remaining: int, prepaids: int)
    requires Valid(p) && orders > p.smallStartOrders
    requires remaining == orders - p.smallStartOrders
    requires prepaids == remaining / p.smallPrepaidOrders + (if remaining % p.smallPrepaidOrders > 0 then 1 else 0)
    ensures prepaids == SmallPrepaids(p, orders) >= 0
    ensures prepaids * p.smallPrepaidOrders >= remaining
  {
  }

  /** The big row's prepaid count and leftover are those of the greedy quote. */
  lemma BigSplit(p: Prices, orders: int, remaining: int, prepaids: int, leftover: int)
    requires Valid(p) && orders > p.bigStartOrders
    requires remaining == orders - p.bigStartOrders
    requires prepaids == remaining / p.bigPrepaidOrders
    requires leftover == remaining - prepaids * p.bigPrepaidOrders
    ensures prepaids == BigPrepaids(p, orders) >= 0
    ensures leftover == BigLeftover(p, orders)
  {
  }

  /** display_costs_df of price_tool.py:196-266 without the formatting:
      append the two rows, then sort them by cost. Rows of equal cost keep
      the order they were appended in. */
  method DisplayCosts(p: Prices, orders: int) returns (rows: seq<Row>)
    requires Valid(p)
    ensures |rows| == 2
    ensures rows[0].cost <= rows[1].cost
    ensures SmallFamily(rows[0].strategy) != SmallFamily(rows[1].strategy)
    ensures rows[0].cost == rows[1].cost ==> SmallFamily(rows[0].strategy)
    ensures Honest(p, orders, rows[0]) && Honest(p, orders, rows[1])
    ensures forall i :: 0 <= i < 2 && SmallFamily(rows[i].strategy) ==>
      rows[i].cost == (if orders <= p.smallStartOrders then p.smallStartCost else SmallPlanCost(p, orders))
    ensures forall i :: 0 <= i < 2 && !SmallFamily(rows[i].strategy) ==>
      rows[i].cost == (if orders <= p.bigStartOrders then p.bigStartCost else BigPlanCost(p, orders))
    ensures forall i :: 0 <= i < 2 && SmallFamily(rows[i].strategy) ==>
      rows[i].bundles == (if orders <= p.smallStartOrders then [Start(Small)]
                          else [Start(Small), Prepaids(Small, SmallPrepaids(p, orders))])
    ensures forall i :: 0 <= i < 2 && !SmallFamily(rows[i].strategy) ==>
      rows[i].bundles == (if orders <= p.bigStartOrders then [Start(Big)]
                          else [Start(Big), Prepaids(Big, BigPrepaids(p, orders))]
                               + (if BigLeftover(p, orders) > 0 then [Overage(BigLeftover(p, orders))] else []))
    ensures forall i :: 0 <= i < 2 ==> rows[i].title == TableLabel(rows[i].strategy)
    ensures rows[0].cost <= CalculateCosts(p, orders).cost
    ensures orders > p.smallStartOrders ==> rows[0].cost == CalculateCosts(p, orders).cost
  {
    var strategies: seq<Row> := [];
    var small := SmallRow(p, orders);
    strategies := strategies + [small];
    var big := BigRow(p, orders);
    strategies := strategies + [big];

    if strategies[1].cost < strategies[0].cost {
      rows := [strategies[1], strategies[0]];
    } else {
      rows := strategies;
    }

    if orders > p.smallStartOrders {
      if orders <= p.bigStartOrders {
        MiddleRegime(p, orders);
      } else {
        BigRegime(p, orders);
      }
    }
  }
}
