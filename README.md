# Edibles gift-card simulation in Dafny

`edibles.py` estimates what a dinner for two (Derek and Lauren) at Edibles costs and sets a gift
from the result. It runs a Monte-Carlo loop. For each of `n_runs` meals it draws:

- how many drinks each diner has, and for each drink a coin (cocktail or beer) and a price;
- how many appetizers, entrees, sides and desserts the table orders, and a price for each;
- a tip rate.

The meal's total is the pre-tax sum plus the tip and the 8% tax on that sum, and it is appended to
`total`. The gift card is then the 50th percentile of the totals, and the extra cash is the 90th
percentile minus the gift card.

The model makes the random generator an explicit input. It is a stream of uniform variates in
[0, 1), and every numpy draw consumes exactly one variate in the order the script draws:

- a categorical draw (`np.random.choice(range(k), p=weights)`) is numpy's inverse-CDF search on the
  cumulative weights;
- a uniform pick from a list (`np.random.choice(options)`) takes index `floor(u * len)`;
- a coin (`np.random.rand()`) is the variate itself.

Everything downstream is exact: prices and rates are `real`.

Modules:

- `Sums`: sums of reals, left to right.
- `Sampling`: the variate stream and the two kinds of draw.
- `Quantile`: `np.percentile` with numpy's default linear (type-7) method, on an insertion-sort
  specification of `np.sort`.
- `Iteration`: a generic "repeat a step n times, threading a position" function, used to specify
  the outer loop.
- `Edibles`: the script's loops, in several parts:
  - `PourDrinks` (one diner's drink loop), `OrderDrinks`, `OrderCourse`, `OrderMeal`,
    `SimulateMeal` (one pass of the meal loop), `Simulate` (the `n_runs` loop) and `Run`. Each is a
    method proved against specification functions (`Pour`, `DrawCourse`, `DrawMeal`, `Meals`).
  - `Split`, the gift/cash split.
  - The properties of all of these.
- `Menu`: the script's own constants (lines 50-88), and what they imply:
  - Derek always has one or two drinks and Lauren at most one.
  - Every drink is a cocktail.
  - The table always orders two entrees.
  - Every meal costs between $44.28 and $209.92.
  - So the gift lies in that range too.

The script configures a separate cocktail probability for each diner (edibles.py:50-51), and
line 108 introduces the first drink loop as Derek's. Yet both drink loops test Lauren's
probability (lines 110 and 119), and Derek's own is never read. This looks unintended, but the
model follows the code as written. `Edibles.SimulationIgnoresDerekCocktail` proves the
consequence: Derek's probability has no effect on any simulated total.

## Model

| member | source | states |
|---|---|---|
| Sampling.Categorical | edibles.py:105-106 | a drawn count is an index of the weight vector whose weight is positive, and the variate falls in that index's slice of the cumulative weights |
| Sampling.CertainOutcome | edibles.py:130 | an outcome of weight 1 (the entree count of 2 in the script) is drawn whatever the variate |
| Sampling.PickIndex | edibles.py:111 | a uniform pick from a list of n prices is an index below n, the one whose 1/n slice holds the variate |
| Sampling.Choice | edibles.py:111 | `np.random.choice(options)` returns an element of `options` |
| Edibles.Drink | edibles.py:110-113 | a drink is a cocktail when its coin is below Lauren's cocktail probability, a beer otherwise |
| Edibles.Pour | edibles.py:109-113 | a diner's loop over n drinks pours exactly n prices |
| Edibles.Order | edibles.py:126 | the list comprehension picks exactly n prices, each from the course's price list |
| Edibles.DrawCourse | edibles.py:125-126 | a course's item count lies in 0 .. len(weights)-1 with positive weight, and each item comes from the course's prices |
| Edibles.TipRate | edibles.py:143 | the tip rate is an entry of `tax_options` whose weight in `prob_tip` is positive |
| Edibles.DrawDrinks | edibles.py:104-122 | the drink section consumes two variates for the counts and two per drink poured |
| Edibles.DrawMeal | edibles.py:98-143 | every meal consumes at least one variate, so the next meal starts after it |
| Edibles.Charge | edibles.py:143-144 | a non-negative rate charged on a non-negative amount is not negative |
| Edibles.Meal.PreTax | edibles.py:142 | `pre_tax_total` is the sum of the drink, appetizer, entree, side and dessert accumulators |
| Edibles.Meal.Total | edibles.py:143-145 | the meal total is the pre-tax total plus the tip and the tax on it, and never below a non-negative pre-tax total when both rates are non-negative |
| Edibles.PourDrinks | edibles.py:109-113 | the drink loop adds to the running cost exactly the sum of the n drinks it pours and consumes two variates per drink |
| Edibles.OrderDrinks | edibles.py:105-122 | the drink section adds to `cost_drinks` the sum of Derek's drinks plus the sum of Lauren's drinks |
| Edibles.OrderCourse | edibles.py:125-139 | the loop builds the same picks as the list comprehension, and the course adds exactly their `np.sum` to its accumulator, 0 when no item is ordered |
| Edibles.OrderMeal | edibles.py:98-142 | starting from zeroed accumulators, `pre_tax_total` is the pre-tax sum of the meal drawn from the current variate, whatever earlier meals cost |
| Edibles.SimulateMeal | edibles.py:97-145 | one pass of the meal loop yields the drawn meal's pre-tax total plus tip plus tax, and leaves the generator where the next meal starts |
| Edibles.Meals | edibles.py:91-145 | n meals produce exactly n totals |
| Edibles.Simulate | edibles.py:91-145 | the loop leaves `total` with `n_runs` entries, entry i being the total of the i-th meal drawn |
| Edibles.Split | edibles.py:148-149 | the gift card is the 50th percentile, card plus cash is the 90th percentile, and the cash is not negative |
| Edibles.SplitWithin | edibles.py:148-149 | when every total lies in [lo, hi], so do the gift card and the card plus cash |
| Edibles.Run | edibles.py:91-149 | the script's result is the split of the simulated totals, with non-negative cash |
| Edibles.PourAt | edibles.py:109-113 | the k-th poured drink is the one priced with the variates at 2k and 2k+1 after the loop's start |
| Edibles.DrinksFromMenu | edibles.py:109-122 | every poured drink is a cocktail or a beer, and only cocktails when Lauren's probability is at least 1 |
| Edibles.DrawnDrinks | edibles.py:104-122 | each diner's drinks are cocktails or beers, and only cocktails when Lauren's probability is at least 1 |
| Edibles.MealCounts | edibles.py:105-143 | every count of a meal is an outcome of positive weight of its own weight vector, and the meal consumes exactly 7 count and tip variates, two per drink and one per dish |
| Edibles.MealFromMenu | edibles.py:109-143 | every price in a drawn meal comes from its menu list, and the tip rate is one of the tip rates |
| Edibles.OnlyCocktails | edibles.py:109-122 | with Lauren's cocktail probability at 1, both diners only ever drink cocktails |
| Edibles.TotalFactored | edibles.py:142-145 | a meal's total is its pre-tax total times (1 + tip rate + tax rate) |
| Edibles.PickedNonNegative | edibles.py:126-127 | items picked from price lists without negative prices sum to no less than 0 |
| Edibles.MealNonNegative | edibles.py:98-142 | with no negative price or rate, a drawn meal's pre-tax total and tip rate are not negative |
| Edibles.MealTotalBounds | edibles.py:142-145 | with no negative price or rate, 0 <= pre-tax total <= meal total |
| Edibles.MealsPrefix | edibles.py:145 | `total` only grows by appending: the first m of n totals are the totals of m meals |
| Edibles.MealsEntry | edibles.py:95-145 | the i-th total is the total of the meal drawn where the first i meals left the generator |
| Edibles.SamplesNonNegative | edibles.py:91-145 | with no negative price or rate, no simulated total is negative |
| Edibles.GiftNonNegative | edibles.py:148 | with no negative price or rate, the gift card is not negative |
| Edibles.PourIgnoresDerekCocktail | edibles.py:109-113 | Derek's cocktail probability does not change any poured drink |
| Edibles.DrinksIgnoreDerekCocktail | edibles.py:104-122 | Derek's cocktail probability changes neither diner's drinks |
| Edibles.MealIgnoresDerekCocktail | edibles.py:50 | Derek's cocktail probability changes no drawn meal |
| Edibles.SimulationIgnoresDerekCocktail | edibles.py:110 | Derek's cocktail probability changes no simulated total |
| Edibles.CourseNotOrdered | edibles.py:125-127 | a course with all its weight on 0 items orders nothing |
| Edibles.EmptyMeal | edibles.py:98-145 | when every count has all its weight on 0, a meal costs 0, tip and tax included |
| Edibles.NothingOrdered | edibles.py:148-149 | when nothing is ever ordered, the gift card and the cash are both 0 |
| Edibles.CourseOfOne | edibles.py:130-131 | a course with all its weight on 1 item costs one price from its list |
| Edibles.OneEntreeMeal | edibles.py:130-145 | with one entree and nothing else, and no tip or tax, a meal costs one entree price |
| Edibles.OneEntreeGift | edibles.py:148-149 | with one entree and nothing else, and no tip or tax, gift card and cash lie between the cheapest and the dearest entree |
| Quantile.Insert | edibles.py:148 | inserting into sorted samples keeps them sorted and adds exactly one element |
| Quantile.Sort | edibles.py:148 | the samples `np.percentile` orders are a sorted permutation of `total` |
| Quantile.SortOfSorted | edibles.py:148 | sorting samples already in order leaves them unchanged |
| Quantile.SortedFrom | edibles.py:148 | every order statistic is one of the samples |
| Quantile.Interpolate | edibles.py:148-149 | the interpolated value lies between the order statistics on either side of the position, and equals the order statistic at a whole position |
| Quantile.Rank | edibles.py:148-149 | the position of a percentile lies between 0 and n-1 |
| Quantile.Percentile | edibles.py:148-149 | a percentile lies between the smallest and the largest sample |
| Quantile.InterpolateMonotone | edibles.py:148-149 | interpolation is monotone in the position |
| Quantile.RankMonotone | edibles.py:148-149 | a higher percentile sits at a higher position |
| Quantile.PercentileMonotone | edibles.py:148-149 | the 90th percentile is never below the 50th, so `cash_value` is never negative |
| Quantile.PercentileOfConstant | edibles.py:148-149 | every percentile of equal samples is that value |
| Quantile.PercentileOfSorted | edibles.py:148-149 | on samples already in order a percentile interpolates them directly |
| Quantile.PercentileOfOneToTen | edibles.py:148-149 | on 1, 2, ..., 10 the 50th percentile is 5.5 and the 90th is 9.1 |
| Sums.Sum | edibles.py:127 | `np.sum` of a list, and the running `+=` accumulator, as a left-to-right sum that is 0 for an empty list |
| Sums.SumAppend | edibles.py:111 | adding one price to an accumulator adds it to the sum |
| Menu.ScriptValid | edibles.py:54-73 | every weight vector of the script sums to 1 and is not negative, and no price list is empty |
| Menu.ScriptNonNegative | edibles.py:50-88 | no price or rate of the script is negative |
| Menu.ScriptPriceRanges | edibles.py:83-88 | cocktails cost $8-$12, appetizers $8-$16, entrees $14-$30, sides $6.50-$10, desserts $7-$8 |
| Menu.ScriptShapedCounts | edibles.py:54-66 | with weights shaped like the script's, Derek has 1 or 2 drinks, Lauren at most 1, and the table orders 2 entrees and at most 2 of every other course |
| Menu.ScriptShapedDraws | edibles.py:51-66 | with those weights and Lauren's cocktail probability at 1, every meal has those counts and only cocktails |
| Menu.ScriptDrawsScriptMeals | edibles.py:50-88 | every meal the script draws has those counts, only cocktails, and prices and tip rate from its lists |
| Menu.PreTaxWithin | edibles.py:142 | such a meal costs between $36 and $164 before tip and tax |
| Menu.ScriptPreTaxBounds | edibles.py:142 | one of the script's meals costs between $36 and $164 before tip and tax |
| Menu.ScriptTotalBounds | edibles.py:142-145 | one of the script's meals costs between $44.28 and $209.92 with tip and tax |
| Menu.ScriptMealTotal | edibles.py:95-145 | every meal the script draws costs between $44.28 and $209.92 |
| Menu.ScriptGiftBounds | edibles.py:148-149 | the script's gift card is at least $44.28, and card plus cash at most $209.92 |

## Left out

- The generator's internals are not modelled: seeding (line 92), MT19937's bit stream and the way numpy turns raw bits into a double or a bounded integer. The model takes a stream of variates in [0, 1) as input. It assumes each draw consumes one variate, and that a uniform pick from n prices takes index floor(u * n).
- Statistical properties are not stated, for example that drawn frequencies match the weights. They are not facts about any single run.
- Printing (lines 151-154) and plotting (lines 156-173) are presentation only.
- IEEE floating point is not modelled; all arithmetic is exact. As a consequence, a weight vector must sum to exactly 1, where numpy accepts a small tolerance, and the type-7 interpolation is exact rather than rounded.
- `Valid` makes explicit what numpy itself demands or rejects with an exception: weights that form a distribution, non-empty price lists, and as many tip rates as tip weights. The model does not reach those exceptions. The script validates nothing itself.
- `Split` requires at least one total. `np.percentile` of an empty array is an error, and the script always runs 100000 meals.
- `np.append`, `np.sum` dtype handling and `np.linspace` are plain sequence append, exact sum and nothing, respectively. `np.sort` is specified by an insertion sort on values, not by numpy's algorithm.
