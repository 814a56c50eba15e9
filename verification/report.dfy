/** The figures display_costs_df of pricing_logic.py:82-154 derives from
    the optimum: which starter was used, how many prepaids of each tier,
    their descriptions, the overage, and the cost and order breakdowns.
    The table layout and the euro formatting are rendering. */
module CostReport {
  import opened Common
  import opened Bundles
  import opened ComboText
  import opened Search

  /** A starter row: the starter's cost and capacity when it is the one
      used, "Niet gebruikt" otherwise. */
  datatype StarterUse = Used(cost: real, orders: nat) | NotUsed

  datatype CostBreakdown = CostBreakdown(start: real, prepaid: real, overage: real)

  datatype OrdersBreakdown = OrdersBreakdown(start: nat, prepaid: nat, overage: nat)

  datatype Report = Report(
    orders: int,
    smallStart: StarterUse, bigStart: StarterUse,
    smallCount: nat, bigCount: nat,
    smallText: Description, bigText: Description,
    overageOrders: nat, overageCost: real,
    total: real,
    costs: CostBreakdown, ordersSplit: OrdersBreakdown)

  /** The starter row of one tier (pricing_logic.py:96-107). */
  function StarterRow(starter: Bundle, tier: Tier): (u: StarterUse)
    ensures u.Used? <==> starter.tier == tier
    ensures u.Used? ==> u == Used(starter.cost, starter.capacity)
  {
    if starter.tier == tier then Used(starter.cost, starter.capacity) else NotUsed
  }

  /** The report shows the chosen candidate. */
  predicate Shows(orders: int, c: Choice, rep: Report)
  {
    && rep.orders == orders
    && rep.smallStart == StarterRow(c.starter, Small)
    && rep.bigStart == StarterRow(c.starter, Big)
    && rep.smallCount == CountTier(c.combo, Small)
    && rep.bigCount == CountTier(c.combo, Big)
    && Describes(rep.smallText, OfTier(c.combo, Small))
    && Describes(rep.bigText, OfTier(c.combo, Big))
    && rep.overageOrders == c.leftover
    && rep.overageCost == c.overage
    && rep.total == c.total
    && rep.costs == CostBreakdown(c.starter.cost, SumCost(c.combo), c.overage)
    && rep.ordersSplit == OrdersBreakdown(c.starter.capacity, SumCapacity(c.combo), c.leftover)
  }

  /** display_costs_df of pricing_logic.py:82-154. An empty starter list
      (the optimiser finds nothing) or a prepaid list without positive
      capacity (the optimiser fails) is caught by the function's handler
      and yields nothing. */
  method DisplayCosts(orders: int, starts: seq<Bundle>, pool: seq<Bundle>, rate: real)
    returns (r: Option<Report>)
    ensures var o := Optimum(orders, starts, pool, rate, DEFAULT_CEILING);
      r.Some? <==> o.Ok? && o.value.Some?
    ensures r.Some? ==> var o := Optimum(orders, starts, pool, rate, DEFAULT_CEILING);
      && Shows(orders, o.value.value, r.value)
      && r.value.smallCount + r.value.bigCount <= |o.value.value.combo|
    ensures r.Some? ==> var rep := r.value;
      && rep.costs.start + rep.costs.prepaid + rep.costs.overage == rep.total
      && rep.ordersSplit.start + rep.ordersSplit.prepaid + rep.ordersSplit.overage >= orders
      && (rep.overageOrders > 0 ==> rep.ordersSplit.start + rep.ordersSplit.prepaid + rep.ordersSplit.overage == orders)
      && (rep.overageOrders == 0 ==> rep.overageCost == 0.0)
      && (rep.smallText == Geen <==> rep.smallCount == 0)
      && (rep.smallText.Listed? ==> TotalCount(rep.smallText.entries) == rep.smallCount)
      && (rep.bigText == Geen <==> rep.bigCount == 0)
      && (rep.bigText.Listed? ==> TotalCount(rep.bigText.entries) == rep.bigCount)
  {
    var result := CalculateCosts(orders, starts, pool, rate, DEFAULT_CEILING);
    if result.Err? || result.value.None? {
      return None;
    }
    var c := result.value.value;
    OptimumAccounts(orders, starts, pool, rate, DEFAULT_CEILING);

    var smallCount := CountTier(c.combo, Small);
    var bigCount := CountTier(c.combo, Big);
    TierCountsBounded(c.combo);
    var smallBundles := OfTier(c.combo, Small);
    var bigBundles := OfTier(c.combo, Big);
    OfTierLength(c.combo, Small);
    OfTierLength(c.combo, Big);
    var smallText := Describe(smallBundles);
    var bigText := Describe(bigBundles);
    if smallText.Listed? {
      DescribedCountsAddUp(smallText, smallBundles);
    }
    if bigText.Listed? {
      DescribedCountsAddUp(bigText, bigBundles);
    }

    var costs := CostBreakdown(c.starter.cost, SumCost(c.combo), c.overage);
    var split := OrdersBreakdown(c.starter.capacity, SumCapacity(c.combo), c.leftover);
    r := Some(Report(orders,
      StarterRow(c.starter, Small), StarterRow(c.starter, Big),
      smallCount, bigCount, smallText, bigText,
      c.leftover, c.overage, c.total, costs, split));
  }
}
