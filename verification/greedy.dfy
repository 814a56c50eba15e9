/** The three-regime greedy quote of price_tool.py:114-161 and the things
    built beside it: the bundle list that explains a quote
    (price_tool.py:163-194). */
module Greedy {
  import opened Bundles

  /** The ten inputs of price_tool.py:114-118 (the order count aside). */
  datatype Prices = Prices(
    smallStartCost: real, smallStartOrders: nat,
    bigStartCost: real, bigStartOrders: nat,
    smallPrepaidCost: real, smallPrepaidOrders: nat,
    bigPrepaidCost: real, bigPrepaidOrders: nat,
    overageCost: real)

  /** The input form allows no prepaid capacity below 1 (price_tool.py:327,330);
      the divisions of the quote depend on it. */
  predicate Valid(p: Prices)
  {
    p.smallPrepaidOrders >= 1 && p.bigPrepaidOrders >= 1
  }

  datatype Strategy = SmallStart | BigStart | SmallStartPrepaids | BigStartPrepaids

  /** The label the quote returns. */
  function Label(s: Strategy): (l: string)
    ensures s == SmallStart <==> l == "Small Start"
    ensures s == BigStart <==> l == "Big Start"
    ensures s == SmallStartPrepaids <==> l == "Small Start + Prepaids"
    ensures s == BigStartPrepaids <==> l == "Big Start + Prepaids"
  {
    match s
    case SmallStart => "Small Start"
    case BigStart => "Big Start"
    case SmallStartPrepaids => "Small Start + Prepaids"
    case BigStartPrepaids => "Big Start + Prepaids"
  }

  /** Whether a strategy begins with the small starter. */
  predicate SmallFamily(s: Strategy)
  {
    s == SmallStart || s == SmallStartPrepaids
  }

  /** Prepaid count for the middle regime (price_tool.py:126-128):
      floor division, plus one when the product falls short. It is the
      ceiling of `remainder / capacity`. */
  function CeilByProduct(remainder: int, capacity: nat): (n: int)
    requires capacity >= 1
    ensures n * capacity >= remainder && (n - 1) * capacity < remainder
  {
    var n := remainder / capacity;
    if remainder > n * capacity then n + 1 else n
  }

  /** Prepaid count for the big regime and the reports (price_tool.py:139-142):
      floor division, plus one when the remainder is positive. It is the
      ceiling of `remainder / capacity` as well. */
  function CeilByRemainder(remainder: int, capacity: nat): (n: int)
    requires capacity >= 1
    ensures n * capacity >= remainder && (n - 1) * capacity < remainder
  {
    var n := remainder / capacity;
    if remainder % capacity > 0 then n + 1 else n
  }

  /** The two ways of rounding up agree on every input. */
  lemma CeilingsAgree(remainder: int, capacity: nat)
    requires capacity >= 1
    ensures CeilByProduct(remainder, capacity) == CeilByRemainder(remainder, capacity)
  {
    var a := CeilByProduct(remainder, capacity);
    var b := CeilByRemainder(remainder, capacity);
    NoSmallerCeiling(a, b, remainder, capacity);
    NoSmallerCeiling(b, a, remainder, capacity);
  }

  /** A count whose multiple reaches the remainder is at least any count
      whose predecessor's multiple falls short of it. */
  lemma NoSmallerCeiling(n: int, m: int, remainder: int, capacity: nat)
    requires capacity >= 1
    requires n * capacity >= remainder && (m - 1) * capacity < remainder
    ensures n >= m
  {
  }

  /** Small prepaids needed after the small starter, rounded up. */
  function SmallPrepaids(p: Prices, orders: int): int
    requires Valid(p)
  {
    CeilByRemainder(orders - p.smallStartOrders, p.smallPrepaidOrders)
  }

  /** Big prepaids after the big starter, rounded down (price_tool.py:146-147). */
  function BigPrepaids(p: Prices, orders: int): int
    requires Valid(p)
  {
    (orders - p.bigStartOrders) / p.bigPrepaidOrders
  }

  /** The orders the big starter and its prepaids leave uncovered (price_tool.py:148). */
  function BigLeftover(p: Prices, orders: int): (r: int)
    requires Valid(p)
    ensures 0 <= r < p.bigPrepaidOrders
    ensures p.bigStartOrders + BigPrepaids(p, orders) * p.bigPrepaidOrders + r == orders
  {
    (orders - p.bigStartOrders) - BigPrepaids(p, orders) * p.bigPrepaidOrders
  }

  /** Option 1 of the big regime: small starter and enough small prepaids (price_tool.py:138-143). */
  function SmallPlanCost(p: Prices, orders: int): real
    requires Valid(p)
  {
    p.smallStartCost + SmallPrepaids(p, orders) as real * p.smallPrepaidCost
  }

  /** Option 2 of the big regime: big starter, big prepaids rounded down,
      the rest at the overage rate (price_tool.py:145-155). */
  function BigPlanCost(p: Prices, orders: int): real
    requires Valid(p)
  {
    var r := BigLeftover(p, orders);
    var overage := if r > 0 then r as real * p.overageCost else 0.0;
    p.bigStartCost + BigPrepaids(p, orders) as real * p.bigPrepaidCost + overage
  }

  /** A quote: a cost and the strategy that achieves it. */
  datatype Quote = Quote(cost: real, strategy: Strategy)

  /** calculate_costs of price_tool.py:114-161. */
  function CalculateCosts(p: Prices, orders: int): (q: Quote)
    requires Valid(p)
  {
    if p.smallStartOrders >= orders then
      Quote(p.smallStartCost, SmallStart)
    else if p.bigStartOrders >= orders then
      var needed := CeilByProduct(orders - p.smallStartOrders, p.smallPrepaidOrders);
      var smallTotal := p.smallStartCost + needed as real * p.smallPrepaidCost;
      if smallTotal < p.bigStartCost then Quote(smallTotal, SmallStartPrepaids)
      else Quote(p.bigStartCost, BigStart)
    else
      var smallTotal := SmallPlanCost(p, orders);
      var bigTotal := BigPlanCost(p, orders);
      if smallTotal < bigTotal then Quote(smallTotal, SmallStartPrepaids)
      else Quote(bigTotal, BigStartPrepaids)
  }

  /** When the small starter holds every order, the quote is that starter alone. */
  lemma SmallRegime(p: Prices, orders: int)
    requires Valid(p) && orders <= p.smallStartOrders
    ensures CalculateCosts(p, orders) == Quote(p.smallStartCost, SmallStart)
  {
  }

  /** Between the two starter capacities the quote is the cheaper of
      small-plus-prepaids and the big starter; a tie goes to the big starter. */
  lemma MiddleRegime(p: Prices, orders: int)
    requires Valid(p) && p.smallStartOrders < orders <= p.bigStartOrders
    ensures var q := CalculateCosts(p, orders);
      && q.cost <= SmallPlanCost(p, orders) && q.cost <= p.bigStartCost
      && (q.cost == SmallPlanCost(p, orders) || q.cost == p.bigStartCost)
      && (q.strategy == BigStart <==> p.bigStartCost <= SmallPlanCost(p, orders))
      && (q.strategy == SmallStartPrepaids <==> SmallPlanCost(p, orders) < p.bigStartCost)
  {
    CeilingsAgree(orders - p.smallStartOrders, p.smallPrepaidOrders);
  }

  /** Above both starter capacities the quote is the cheaper of the two
      plans; a tie goes to the big plan. */
  lemma BigRegime(p: Prices, orders: int)
    requires Valid(p) && orders > p.smallStartOrders && orders > p.bigStartOrders
    ensures var q := CalculateCosts(p, orders);
      && q.cost <= SmallPlanCost(p, orders) && q.cost <= BigPlanCost(p, orders)
      && (q.cost == SmallPlanCost(p, orders) || q.cost == BigPlanCost(p, orders))
      && (q.strategy == BigStartPrepaids <==> BigPlanCost(p, orders) <= SmallPlanCost(p, orders))
      && (q.strategy == SmallStartPrepaids <==> SmallPlanCost(p, orders) < BigPlanCost(p, orders))
  {
  }

  // ---------------------------------------------------------------
  // Bundle lists

  /** One item of a bundle list: a starter, a number of prepaids of one
      size, or a number of orders charged at the overage rate. */
  datatype Line = Start(tier: Tier) | Prepaids(tier: Tier, count: int) | Overage(orders: int)

  function LineCost(p: Prices, l: Line): real
  {
    match l
    case Start(t) => if t == Small then p.smallStartCost else p.bigStartCost
    case Prepaids(t, n) => n as real * (if t == Small then p.smallPrepaidCost else p.bigPrepaidCost)
    case Overage(r) => r as real * p.overageCost
  }

  function LineOrders(p: Prices, l: Line): int
  {
    match l
    case Start(t) => if t == Small then p.smallStartOrders else p.bigStartOrders
    case Prepaids(t, n) => n * (if t == Small then p.smallPrepaidOrders else p.bigPrepaidOrders)
    case Overage(r) => r
  }

  /** What the bundles of a list cost together. */
  function LinesCost(p: Prices, ls: seq<Line>): real
  {
    if ls == [] then 0.0 else LineCost(p, ls[0]) + LinesCost(p, ls[1..])
  }

  /** How many orders the bundles of a list hold together. */
  function LinesOrders(p: Prices, ls: seq<Line>): int
  {
    if ls == [] then 0 else LineOrders(p, ls[0]) + LinesOrders(p, ls[1..])
  }

  /** The explanation of price_tool.py:163-194: the strategy heading, the
      bundle lines, and the order count of the closing line. */
  datatype Summary = Summary(strategy: Strategy, lines: seq<Line>, totalOrders: int)

  /** bundle_description of price_tool.py:163-194: recomputes the bundle
      counts of a strategy. For the big plan the prepaid line is left out
      when there are none and the overage line when nothing is left over. */
  function Describe(p: Prices, s: Strategy, orders: int): (d: Summary)
    requires Valid(p)
    ensures d.strategy == s && d.totalOrders == orders
  {
    var lines :=
      match s
      case SmallStart => [Start(Small)]
      case BigStart => [Start(Big)]
      case SmallStartPrepaids => [Start(Small), Prepaids(Small, SmallPrepaids(p, orders))]
      case BigStartPrepaids =>
        var n := BigPrepaids(p, orders);
        var r := BigLeftover(p, orders);
        if n > 0 && r > 0 then [Start(Big), Prepaids(Big, n), Overage(r)]
        else if n > 0 then [Start(Big), Prepaids(Big, n)]
        else if r > 0 then [Start(Big), Overage(r)]
        else [Start(Big)];
    Summary(s, lines, orders)
  }

  /** The totals of a list of at most three lines, written out. */
  lemma UnfoldLines(p: Prices, ls: seq<Line>)
    requires 1 <= |ls| <= 3
    ensures LinesCost(p, ls) == LineCost(p, ls[0])
      + (if |ls| > 1 then LineCost(p, ls[1]) else 0.0) + (if |ls| > 2 then LineCost(p, ls[2]) else 0.0)
    ensures LinesOrders(p, ls) == LineOrders(p, ls[0])
      + (if |ls| > 1 then LineOrders(p, ls[1]) else 0) + (if |ls| > 2 then LineOrders(p, ls[2]) else 0)
  {
    if |ls| > 1 {
      assert ls[1..][0] == ls[1];
      if |ls| > 2 {
        assert ls[1..][1..][0] == ls[2] && ls[1..][1..][1..] == [];
      } else {
        assert ls[1..][1..] == [];
      }
    } else {
      assert ls[1..] == [];
    }
  }

  /** For the big plan the listed bundles and overage add up to the
      order count exactly (once the order count reaches the big starter). */
  lemma BigPlanListsEveryOrder(p: Prices, orders: int)
    requires Valid(p) && orders >= p.bigStartOrders
    ensures var d := Describe(p, BigStartPrepaids, orders);
      && LinesOrders(p, d.lines) == orders
      && LinesCost(p, d.lines) == BigPlanCost(p, orders)
      && (forall l :: l in d.lines ==> l != Prepaids(Big, 0) && l != Overage(0))
  {
    var d := Describe(p, BigStartPrepaids, orders);
    UnfoldLines(p, d.lines);
  }

  /** For the small plan the listed bundles hold at least the order count. */
  lemma SmallPlanCoversOrders(p: Prices, orders: int)
    requires Valid(p)
    ensures var d := Describe(p, SmallStartPrepaids, orders);
      && LinesOrders(p, d.lines) >= orders
      && LinesCost(p, d.lines) == SmallPlanCost(p, orders)
  {
    UnfoldLines(p, Describe(p, SmallStartPrepaids, orders).lines);
  }

  /** The bundles listed for a quote's strategy cost exactly the quoted
      amount and hold every order. */
  lemma DescribedQuote(p: Prices, orders: int)
    requires Valid(p)
    ensures var q := CalculateCosts(p, orders);
      var d := Describe(p, q.strategy, orders);
      && LinesCost(p, d.lines) == q.cost
      && LinesOrders(p, d.lines) >= orders
      && (q.strategy == BigStartPrepaids ==> LinesOrders(p, d.lines) == orders)
  {
    var q := CalculateCosts(p, orders);
    if orders > p.smallStartOrders {
      CeilingsAgree(orders - p.smallStartOrders, p.smallPrepaidOrders);
      SmallPlanCoversOrders(p, orders);
      if q.strategy == BigStartPrepaids {
        BigPlanListsEveryOrder(p, orders);
      }
    }
  }
}
