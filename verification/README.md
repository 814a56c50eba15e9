# Bundle pricing: a verified model

The pricing tool answers one question: given a number of orders, which
mix of bundles is cheapest?

- A **starter bundle** is bought once and covers a number of orders.
- **Prepaid bundles** can be added as often as needed.
- Every order they leave uncovered costs the **overage** rate.

The repository has two engines, and both are modelled here.

- **The exhaustive optimiser** is in `pricing_logic.py`.
  - `calculate_costs` tries every starter. For each one it tries every
    multiset of prepaid bundles up to a size bound and keeps the first
    cheapest candidate.
  - `bundle_description` summarises a prepaid combination.
  - `display_costs_df` derives the figures of the cost table from the
    optimum.
  - `calculate_marginal_cost` sweeps the order count in fixed steps and
    reports the total and the step cost at each point.
- **The greedy quote** is in `price_tool.py`.
  - `calculate_costs` picks a strategy by regime: the small starter
    alone, the cheaper of small-plus-prepaids and the big starter, or the
    cheaper of the two prepaid plans.
  - `bundle_description` lists the bundles a strategy buys.
  - `display_costs_df` builds the two-row strategy table, sorted by cost.

## Modules

- `Bundles` (bundles.dfy) holds the `(cost, orders, type)` tuples and
  their sums, counts and per-tier filters.
- `Combinations` (combinations.dfy) models
  `itertools.combinations_with_replacement`. A combination is a
  non-decreasing sequence of indices into the prepaid list, and the
  combinations are listed in lexicographic order. The module proves that
  the list is sound, complete and sorted.
- `Search` (search.dfy) holds the optimiser.
  - `Optimum` is the reference definition: the first cheapest entry of
    the candidate list, in the order in which the loops visit candidates.
  - The method `CalculateCosts` runs the three nested loops of the
    source, and it is proved equal to `Optimum`.
  - Lemmas show that `Optimum` is cheapest over the whole search space,
    that it is the first candidate that cheap, and that its figures add
    up.
- `Monotone` (monotone.dfy) proves that the optimum's total never falls
  as the order count grows, when no price and no rate is negative.
- `ComboText` (combo_text.dfy) models `bundle_description` of the
  optimiser as two loops. One loop counts keys into a dictionary. The
  other loop builds the entries.
- `CostReport` (report.dfy) models `display_costs_df` of the optimiser.
- `Marginal` (marginal.dfy) models the marginal-cost sweep. It proves that
  the step costs telescope.
- `Greedy` (greedy.dfy) holds the greedy quote, its three regimes, and
  its bundle list.
- `StrategyTable` (strategy_table.dfy) holds the greedy two-row table.

The modelling choices are these.

- Costs are exact `real`s and order counts are unbounded integers. Python's
  integers are unbounded too. Python's `//` and `%` with a positive divisor
  agree with Dafny's.
- The optimiser's "no result yet" state is `float('inf')` with `None`.
  It becomes `Option<Choice>`.
- `min()` over no positive prepaid capacity raises `ValueError` in the
  source. This happens only when some starter exists. In the model it is
  the error `NoPositiveCapacity`.
- The cap of 20 on the number of prepaids is the constant
  `Search.DEFAULT_CEILING`. The search functions take it as a parameter.

## Model

| member | source | states |
|---|---|---|
| Search.CalculateCosts | pricing_logic.py:11-62 | The starter, size and combination loops return exactly the reference optimum `Optimum`. |
| Search.Optimum | pricing_logic.py:25-62 | With no starters the result is "nothing found". It fails exactly when some starter exists and no prepaid bundle has positive capacity. Otherwise it finds a candidate. |
| Search.OptimumAccounts | pricing_logic.py:29-60 | The optimum uses one of the given starters and at most the size bound (at most the ceiling) of bundles, all from the prepaid list. Its overage covers exactly the uncovered orders, and its total is starter plus prepaids plus overage. |
| Search.OptimumIsCheapest | pricing_logic.py:42-60 | Every combination in the search space of every starter costs at least as much as the optimum. |
| Search.OptimumIsFirstCheapest | pricing_logic.py:42-60 | The optimum is the first candidate, in loop order, whose total is minimal: the strict `<` keeps the earliest of equal totals. |
| Search.FirstCheapestIsFirstMinimum | pricing_logic.py:58-60 | Running the "replace if strictly cheaper" update over a non-empty list yields its first minimum. |
| Search.SearchSize | pricing_logic.py:44-60 | The combination loop appends the evaluation of every combination in order and keeps the first cheapest so far. |
| Search.SearchStarter | pricing_logic.py:42-60 | The size loop visits sizes 0 to the bound, and each size's combinations in order. |
| Search.EvaluateAccounts | pricing_logic.py:33-56 | `Search.Evaluate` models one pass of the combination loop. A candidate's leftover is the orders its starter and bundles leave uncovered, or 0. Its overage is that leftover times the rate, and its total is the sum of its three costs. |
| Search.MinPositiveCapacityIsLeast | pricing_logic.py:36 | The smallest positive capacity is the capacity of some prepaid bundle and no larger than any positive capacity. |
| Search.SearchBoundFits | pricing_logic.py:33-39 | Below the ceiling, the size bound is two more than the number of smallest bundles that fit in the remaining orders. |
| Monotone.OptimumMonotone | pricing_logic.py:11-62 | With non-negative prepaid costs and overage rate, at least one starter and some positive prepaid capacity, the optimum exists for every order count, and its total for fewer orders is no higher than for more. |
| Monotone.ShrinkToBound | pricing_logic.py:33-44 | A combination within a starter's size bound for more orders can be cut to one within the bound for fewer orders whose total for fewer orders is no higher. |
| Monotone.KeepPositiveIsCombination | pricing_logic.py:44 | Keeping the first bundles of positive capacity leaves a non-decreasing index combination into the prepaid list. |
| Monotone.KeepPositiveCostsLess | pricing_logic.py:44-47 | Dropping bundles of non-negative cost does not raise the prepaid cost. |
| Monotone.KeepPositiveCovers | pricing_logic.py:36-47 | The kept bundles hold as much as the whole combination, or at least as many orders as that many of the smallest positive bundles. |
| Monotone.EvaluateCompare | pricing_logic.py:45-56 | With a non-negative rate, a candidate with no dearer bundles and no more uncovered orders has a total no higher. |
| Search.CandidatesSound | pricing_logic.py:29-44 | Every candidate is the evaluation of some starter with some non-decreasing index combination within that starter's bound. |
| Search.CandidatesComplete | pricing_logic.py:29-44 | Every such starter and combination is evaluated among the candidates. |
| Search.CombosUpToComplete | pricing_logic.py:42-44 | Every non-decreasing index combination shorter than the bound plus one is enumerated. |
| Combinations.CombosSound | pricing_logic.py:44 | `Combinations.Combos` models `combinations_with_replacement`. Every combination it lists has the requested size, is non-decreasing and indexes the prepaid list. |
| Combinations.CombosComplete | pricing_logic.py:44 | Every non-decreasing index combination of a size is enumerated. |
| Combinations.CombosLexSorted | pricing_logic.py:44 | The combinations come in strictly increasing lexicographic order, which is the order of `combinations_with_replacement`, so there are no repeats. |
| ComboText.CountKeys | pricing_logic.py:66-71 | The counting loop lists each `(cost, orders)` key once, in order of first occurrence. Its dictionary maps exactly those keys to the number of bundles carrying them. |
| ComboText.Describe | pricing_logic.py:64-80 | The description is "Geen" exactly for an empty combination. Otherwise it has one entry per distinct key in first-occurrence order with that key's count, in the "n x" form exactly when the count exceeds one. |
| ComboText.DistinctKeysCover | pricing_logic.py:66-71 | `ComboText.DistinctKeys` models the dictionary's keys in insertion order. A key is listed exactly when some bundle has it. |
| ComboText.CountsAddUp | pricing_logic.py:66-71 | The counts of the listed keys add up to the number of bundles. |
| ComboText.DescribedCountsAddUp | pricing_logic.py:73-80 | The counts in a description add up to the size of the combination described. |
| Bundles.TierCountsBounded | pricing_logic.py:89-90 | The small and big counts together never exceed the number of prepaids. |
| Bundles.OfTierLength | pricing_logic.py:89-93 | The bundles handed to each tier's description are exactly as many as that tier's count. |
| CostReport.StarterRow | pricing_logic.py:95-105 | A tier's starter row shows the starter's cost and orders exactly when the chosen starter has that tier, and "Niet gebruikt" otherwise. |
| CostReport.DisplayCosts | pricing_logic.py:82-154 | There is a report exactly when the optimiser finds a candidate; otherwise the handler yields nothing. The report shows the optimum's starter rows, tier counts and descriptions, overage and total. Its cost breakdown sums to the total. Its orders breakdown covers the orders, exactly when there is overage. Zero overage costs nothing, and each tier's description is "Geen" exactly when its count is 0, with entry counts summing to it. |
| Marginal.MarginalCosts | pricing_logic.py:378-396 | For a nonzero step the sweep yields one row per value of `range(step, orders + step, step)`: the order count, the total there, and the difference from the total one step earlier. It fails exactly for a zero step, or when the range is non-empty and the optimiser fails. |
| Marginal.SweepRow | pricing_logic.py:383-394 | One row is built from the optimum at the order count and one step earlier. It fails exactly when the optimiser does. |
| Marginal.StepCostsTelescope | pricing_logic.py:382-394 | The step costs of the first n rows sum to the total at the last row minus the total at 0 orders. |
| Marginal.SweepLengthIsRange | pricing_logic.py:382 | The t-th value of the range is still produced exactly when t is below the sweep's length. |
| Marginal.CountBelowIsCeiling | pricing_logic.py:382 | The length of a range is the number of multiples of the step below the bound. |
| Marginal.Difference | pricing_logic.py:386 | The step cost exists exactly when both totals do, and added to the earlier total it gives the later one. |
| Greedy.SmallRegime | price_tool.py:121-123 | `Greedy.CalculateCosts` models the greedy `calculate_costs`. When the small starter holds every order, its quote is that starter alone at its price. |
| Greedy.MiddleRegime | price_tool.py:124-135 | Between the starter capacities the quote of `Greedy.CalculateCosts` is the cheaper of small-plus-prepaids and the big starter, and a tie goes to the big starter. |
| Greedy.BigRegime | price_tool.py:136-161 | Above both capacities the quote of `Greedy.CalculateCosts` is the cheaper of the two prepaid plans, and a tie goes to the big plan. |
| Greedy.CeilByProduct | price_tool.py:126-128 | The product-test rounding yields the least count whose prepaids reach the remainder. |
| Greedy.CeilByRemainder | price_tool.py:139-142 | The remainder-test rounding yields the least count whose prepaids reach the remainder. |
| Greedy.CeilingsAgree | price_tool.py:139-142 | The remainder-test rounding of the big regime and the report gives the same count as the product-test rounding of the middle regime at lines 126-128. |
| Greedy.BigLeftover | price_tool.py:146-148 | The big plan's leftover is below one prepaid's capacity, and starter plus prepaids plus leftover is exactly the order count. |
| Greedy.Label | price_tool.py:123-161 | The four strategies get the four distinct labels the quote returns. |
| Greedy.Describe | price_tool.py:163-194 | The summary carries the strategy and the order count of the closing line. |
| Greedy.BigPlanListsEveryOrder | price_tool.py:181-191 | The big plan lists bundles and overage that hold exactly the order count and cost the big plan's price. It omits an empty prepaid line and an empty overage line. |
| Greedy.SmallPlanCoversOrders | price_tool.py:172-180 | The small plan lists bundles that hold at least the order count and cost the small plan's price. |
| Greedy.DescribedQuote | price_tool.py:114-194 | The bundles listed for the quoted strategy cost exactly the quoted amount and hold every order. The big plan holds exactly the order count. |
| StrategyTable.SmallRow | price_tool.py:204-226 | When the small starter holds every order, the row is "Small Start" with that one starter at its price. Otherwise it is "Small Start + Prepaids" with the starter and the rounded-up prepaid count of the greedy quote, at the small plan's price. Its cost is what its bundles cost, and its bundles hold every order. |
| StrategyTable.SmallSplit | price_tool.py:215-218 | The row's inline rounding up is the greedy quote's prepaid count, and those prepaids hold what the starter leaves. |
| StrategyTable.BigRow | price_tool.py:228-256 | When the big starter holds every order, the row is "Big Start" with that one starter at its price. Otherwise it is "Big Start + Prepaids + Overage" with the starter, the rounded-down prepaid count (listed even when 0), and the leftover as overage exactly when it is positive, at the big plan's price. Its cost is what they cost, and they hold exactly the order count. |
| StrategyTable.BigSplit | price_tool.py:239-241 | The row's inline division is the greedy quote's prepaid count and leftover. |
| StrategyTable.DisplayCosts | price_tool.py:201-266 | There are two rows, one per starter family, in cost order, with the small family first on a tie, each titled with its strategy's table label. The small family's row lists the small starter alone, or the starter and the rounded-up prepaid count. The big family's row lists the big starter alone, or the starter, the rounded-down prepaid count and the leftover as overage exactly when it is positive. The small family's row costs the small starter's price or the small plan's price, and the big family's row the big starter's price or the big plan's price, by whether the starter holds every order. Both rows are honest. The cheaper row costs no more than the greedy quote, and exactly the quote once the small starter no longer suffices. |
| StrategyTable.TableLabel | price_tool.py:204-256 | Every row is titled with its strategy's label. The table uses the quote's labels, except that the big plan is "Big Start + Prepaids + Overage". |

## Left out

- Rendering is not modelled:
  - the Streamlit interface, charts, file upload and export, and scenario saving and loading;
  - the euro formatting;
  - the `.2f` and `.0f` overage strings;
  - the ", " join of the descriptions;
  - the DataFrame construction.

  Descriptions and reports are kept as structured values.
- The cost-per-order columns are left out. These are `cost / orders` at price_tool.py:210,224,234,254 and `marginal_cost / step` at pricing_logic.py:387. They are floating-point quotients for display only.
- Floating point is modelled as exact `real` arithmetic. Rounding and the comparison of nearly equal float totals are not captured.
- The infinite total and the NaN of `inf - inf` are modelled as `None`. Their arithmetic is not modelled.
- CostReport.DisplayCosts models the handler of pricing_logic.py:152-154 as returning nothing. The message it prints is not modelled. The only failures it catches are those the optimiser can produce: no starter at all, or no positive prepaid capacity.
- Search.CalculateCosts computes the smallest positive capacity once, before the starter loop. The source recomputes it for each starter, but the value is the same every time.
- Search.OptimumIsCheapest proves minimality only over the enumerated search space: at most `min(remaining // smallest + 2, 20)` prepaids per starter. A larger combination could be cheaper, and the source does not look at one either.
- Monotone.OptimumMonotone: proved only for non-negative prepaid costs and overage rate. With a negative price or rate more orders can make the optimum cheaper, and the source accepts such values.
- Bundles.Bundle: capacities are natural numbers, as are the four capacities of Greedy.Prices, so negative capacities are not modelled. The optimiser's filter at pricing_logic.py:36 only guards the minimum against zero. The input form demands at least 1 for every starter and prepaid capacity (price_tool.py:319,322,327,330).
- Greedy and StrategyTable require prepaid capacities of at least 1. With 0 the source divides by zero. Its input form does not allow 0 (price_tool.py:327,330).
- Greedy.Describe models the four strategies as an enumeration. The substring tests on arbitrary strategy strings at price_tool.py:168-181 are not modelled. "Big Start + Prepaids + Overage" contains "Big Start + Prepaids", so it is handled as the big plan.
- StrategyTable.DisplayCosts: with 0 orders the source's cost-per-order division (price_tool.py:210,224,234,254) raises ZeroDivisionError. The model leaves that column out and returns the two rows.
- StrategyTable.DisplayCosts assumes that the sort by cost keeps rows of equal cost in the order they were appended. pandas does not promise this for its default sort.
- Greedy.Describe: its own contract states only the heading and the closing order count. What the listed bundles cost and hold is stated by Greedy.BigPlanListsEveryOrder, Greedy.SmallPlanCoversOrders and Greedy.DescribedQuote.
