/**
 * The Monte-Carlo meal-price simulation of edibles.py: for each of `runs` meals, draw how many
 * drinks each diner has and how many appetizers, entrees, sides and desserts the table orders,
 * draw a price for every item, add a drawn tip rate and the fixed tax rate to the pre-tax sum,
 * and append the meal's total to `total`; then the gift card is the 50th percentile of the
 * totals and the cash the 90th percentile less the gift card.
 *
 * The random draws are functions of the variates of a seeded generator (module Sampling), so
 * every result below is exact: money and rates are `real`.
 */
module Edibles {
  import opened Sums
  import opened Sampling
  import opened Quantile
  import opened Iteration

  /** One course: the weights of ordering 0, 1, 2, ... items, and the menu prices of an item. */
  datatype Course = Course(quantity: seq<real>, prices: seq<real>)

  /** The script's configuration constants. */
  datatype Config = Config(
    derekCocktail: real,          // prob_derek_gets_cocktail_over_beer: never consulted
    laurenCocktail: real,         // prob_lauren_gets_cocktail_over_beer: governs both diners
    derekDrinks: seq<real>,       // weights of Derek having 0, 1, 2, ... drinks
    laurenDrinks: seq<real>,      // weights of Lauren having 0, 1, 2, ... drinks
    cocktails: seq<real>,         // cocktail_options
    beers: seq<real>,             // beer_options
    appetizer: Course,
    entree: Course,
    side: Course,
    dessert: Course,
    tipWeights: seq<real>,        // prob_tip
    tipRates: seq<real>,          // tax_options, which hold the tip rates
    taxRate: real,
    runs: nat)                    // n_runs

  predicate ValidCourse(c: Course)
  {
    IsDistribution(c.quantity) && |c.prices| > 0
  }

  /**
   * What numpy demands of the draws the script makes: every weight vector a distribution,
   * every price list non-empty, and as many tip rates as tip weights.
   */
  predicate Valid(cfg: Config)
  {
    && IsDistribution(cfg.derekDrinks)
    && IsDistribution(cfg.laurenDrinks)
    && |cfg.cocktails| > 0
    && |cfg.beers| > 0
    && ValidCourse(cfg.appetizer)
    && ValidCourse(cfg.entree)
    && ValidCourse(cfg.side)
    && ValidCourse(cfg.dessert)
    && IsDistribution(cfg.tipWeights)
    && |cfg.tipRates| == |cfg.tipWeights|
  }

  /** What a rate charged on `amount` comes to: the tip or the tax on the pre-tax total. */
  function Charge(amount: real, rate: real): (r: real)
    ensures amount >= 0.0 && rate >= 0.0 ==> r >= 0.0
  {
    amount * rate
  }

  /** One realised meal: the price of every item ordered, and the tip rate drawn. */
  datatype Meal = Meal(
    derekDrinks: seq<real>,
    laurenDrinks: seq<real>,
    appetizers: seq<real>,
    entrees: seq<real>,
    sides: seq<real>,
    desserts: seq<real>,
    tipRate: real)
  {
    /** `pre_tax_total`: the five course accumulators added up. */
    function PreTax(): (r: real)
    {
      (Sum(derekDrinks) + Sum(laurenDrinks)) + Sum(appetizers) + Sum(entrees) + Sum(sides) + Sum(desserts)
    }

    /**
     * The pre-tax total plus the tip and the tax on it: never below a non-negative pre-tax
     * total when both rates are non-negative.
     */
    function Total(taxRate: real): (r: real)
      ensures PreTax() >= 0.0 && tipRate >= 0.0 && taxRate >= 0.0 ==> r >= PreTax()
    {
      var preTax := PreTax();
      preTax + Charge(preTax, tipRate) + Charge(preTax, taxRate)
    }
  }

  /**
   * The price of one drink, with the coin at variate `pos` and the pick at `pos + 1`. The
   * coin is compared with Lauren's cocktail probability whoever the drink is for.
   */
  function Drink(cfg: Config, rng: Stream, pos: nat): (price: real)
    requires Valid(cfg) && Uniform(rng)
    ensures price in cfg.cocktails || price in cfg.beers
    ensures price in cfg.cocktails <== rng(pos) < cfg.laurenCocktail
    ensures price in cfg.beers <== rng(pos) >= cfg.laurenCocktail
  {
    if rng(pos) < cfg.laurenCocktail then Choice(cfg.cocktails, rng(pos + 1))
    else Choice(cfg.beers, rng(pos + 1))
  }

  /** The prices of `n` drinks poured one after another, from variate `pos` on. */
  function Pour(cfg: Config, rng: Stream, pos: nat, n: nat): (prices: seq<real>)
    requires Valid(cfg) && Uniform(rng)
    ensures |prices| == n
  {
    if n == 0 then [] else Pour(cfg, rng, pos, n - 1) + [Drink(cfg, rng, pos + 2 * (n - 1))]
  }

  /** `[np.random.choice(prices) for ind in range(0, n)]`, the k-th pick with variate `pos + k`. */
  function Order(prices: seq<real>, rng: Stream, pos: nat, n: nat): (picked: seq<real>)
    requires |prices| > 0 && Uniform(rng)
    ensures |picked| == n
    ensures forall k :: 0 <= k < n ==> picked[k] in prices
  {
    if n == 0 then [] else Order(prices, rng, pos, n - 1) + [Choice(prices, rng(pos + n - 1))]
  }

  /**
   * The prices of the items of a course: how many are ordered is drawn with variate `pos`, and
   * the items with the variates after it.
   */
  function DrawCourse(c: Course, rng: Stream, pos: nat): (picked: seq<real>)
    requires ValidCourse(c) && Uniform(rng)
    ensures |picked| < |c.quantity| && c.quantity[|picked|] > 0.0
    ensures forall k :: 0 <= k < |picked| ==> picked[k] in c.prices
  {
    Order(c.prices, rng, pos + 1, Categorical(c.quantity, rng(pos)))
  }

  /** The first variate after a course's draws. */
  function CourseEnd(c: Course, rng: Stream, pos: nat): (next: nat)
    requires ValidCourse(c) && Uniform(rng)
  {
    pos + 1 + |DrawCourse(c, rng, pos)|
  }

  /**
   * The drinks of one meal, from variate `pos` on: Derek's count, Lauren's count, Derek's
   * drinks, Lauren's drinks. Also returns the first variate after them.
   */
  function DrawDrinks(cfg: Config, rng: Stream, pos: nat): (r: (seq<real>, seq<real>, nat))
    requires Valid(cfg) && Uniform(rng)
    ensures r.2 == pos + 2 + 2 * (|r.0| + |r.1|)
  {
    var derekNum := Categorical(cfg.derekDrinks, rng(pos));
    var laurenNum := Categorical(cfg.laurenDrinks, rng(pos + 1));
    var p1 := pos + 2 + 2 * derekNum;
    (Pour(cfg, rng, pos + 2, derekNum), Pour(cfg, rng, p1, laurenNum), p1 + 2 * laurenNum)
  }

  /**
   * `np.random.choice(tax_options, p=prob_tip)`: the tip rate drawn with variate `pos`, one
   * of the rates whose weight is positive.
   */
  function TipRate(weights: seq<real>, rates: seq<real>, rng: Stream, pos: nat): (rate: real)
    requires IsDistribution(weights) && |rates| == |weights| && Uniform(rng)
    ensures exists i :: 0 <= i < |rates| && weights[i] > 0.0 && rate == rates[i]
  {
    var i := Categorical(weights, rng(pos));
    rates[i]
  }

  /**
   * One meal drawn from the variates starting at `pos`, in the script's order: the drinks,
   * the four courses, the tip rate. Also returns the first variate the next meal uses.
   */
  function DrawMeal(cfg: Config, rng: Stream, pos: nat): (r: (Meal, nat))
    requires Valid(cfg) && Uniform(rng)
    ensures r.1 > pos
  {
    var drinks := DrawDrinks(cfg, rng, pos);
    var p2 := drinks.2;
    var p3 := CourseEnd(cfg.appetizer, rng, p2);
    var p4 := CourseEnd(cfg.entree, rng, p3);
    var p5 := CourseEnd(cfg.side, rng, p4);
    var p6 := CourseEnd(cfg.dessert, rng, p5);
    var tipRate := TipRate(cfg.tipWeights, cfg.tipRates, rng, p6);
    (Meal(drinks.0, drinks.1,
          DrawCourse(cfg.appetizer, rng, p2), DrawCourse(cfg.entree, rng, p3),
          DrawCourse(cfg.side, rng, p4), DrawCourse(cfg.dessert, rng, p5), tipRate),
     p6 + 1)
  }

  /**
   * A diner's `for drink in range(0, n)` loop: adds the price of each of `n` drinks to the
   * running `cost`, from variate `pos` on. Both diners' loops test Lauren's probability.
   */
  method PourDrinks(cfg: Config, rng: Stream, pos: nat, n: nat, cost: real) returns (newCost: real, next: nat)
    requires Valid(cfg) && Uniform(rng)
    ensures newCost == cost + Sum(Pour(cfg, rng, pos, n))
    ensures next == pos + 2 * n
  {
    newCost, next := cost, pos;
    for drink := 0 to n
      invariant next == pos + 2 * drink
      invariant newCost == cost + Sum(Pour(cfg, rng, pos, drink))
    {
      SumAppend(Pour(cfg, rng, pos, drink), Drink(cfg, rng, next));
      if rng(next) < cfg.laurenCocktail {
        newCost := newCost + Choice(cfg.cocktails, rng(next + 1));
      } else {
        newCost := newCost + Choice(cfg.beers, rng(next + 1));
      }
      next := next + 2;
    }
  }

  /** The drink part of the meal loop: both drink counts, then Derek's loop and Lauren's loop. */
  method OrderDrinks(cfg: Config, rng: Stream, pos: nat, cost: real) returns (newCost: real, next: nat)
    requires Valid(cfg) && Uniform(rng)
    ensures newCost == cost + Sum(DrawDrinks(cfg, rng, pos).0) + Sum(DrawDrinks(cfg, rng, pos).1)
    ensures next == DrawDrinks(cfg, rng, pos).2
  {
    var derekNum := Categorical(cfg.derekDrinks, rng(pos));
    var laurenNum := Categorical(cfg.laurenDrinks, rng(pos + 1));
    newCost, next := PourDrinks(cfg, rng, pos + 2, derekNum, cost);
    newCost, next := PourDrinks(cfg, rng, next, laurenNum, newCost);
  }

  /**
   * One course of the meal loop: draw how many items are ordered (variate `pos`), draw each
   * item's price with the variates after it, and add their sum to the course's accumulator.
   */
  method OrderCourse(c: Course, rng: Stream, pos: nat, cost: real) returns (newCost: real, next: nat)
    requires ValidCourse(c) && Uniform(rng)
    ensures newCost == cost + Sum(DrawCourse(c, rng, pos))
    ensures next == CourseEnd(c, rng, pos)
  {
    var num := Categorical(c.quantity, rng(pos));
    var temp := [];
    for ind := 0 to num
      invariant temp == Order(c.prices, rng, pos + 1, ind)
    {
      temp := temp + [Choice(c.prices, rng(pos + 1 + ind))];
    }
    newCost := cost + Sum(temp);
    next := pos + 1 + num;
  }

  /**
   * The ordering part of one pass of the meal loop: fresh zero accumulators, the two drink
   * loops and the four course draws. Returns `pre_tax_total` and the tip's variate.
   */
  method OrderMeal(cfg: Config, rng: Stream, start: nat) returns (preTaxTotal: real, pos: nat)
    requires Valid(cfg) && Uniform(rng)
    ensures preTaxTotal == DrawMeal(cfg, rng, start).0.PreTax()
    ensures pos + 1 == DrawMeal(cfg, rng, start).1
    ensures TipRate(cfg.tipWeights, cfg.tipRates, rng, pos) == DrawMeal(cfg, rng, start).0.tipRate
  {
    var costDrinks, costAppetizers, costEntrees, costSides, costDessert := 0.0, 0.0, 0.0, 0.0, 0.0;
    pos := start;
    costDrinks, pos := OrderDrinks(cfg, rng, pos, costDrinks);
    costAppetizers, pos := OrderCourse(cfg.appetizer, rng, pos, costAppetizers);
    costEntrees, pos := OrderCourse(cfg.entree, rng, pos, costEntrees);
    costSides, pos := OrderCourse(cfg.side, rng, pos, costSides);
    costDessert, pos := OrderCourse(cfg.dessert, rng, pos, costDessert);
    preTaxTotal := costDrinks + costAppetizers + costEntrees + costSides + costDessert;
  }

  /**
   * One pass of the script's meal loop: order the meal, then add the tip, at a rate drawn with
   * the next variate, and the tax. Returns the meal's total and the next unused variate.
   */
  method SimulateMeal(cfg: Config, rng: Stream, start: nat) returns (mealTotal: real, next: nat)
    requires Valid(cfg) && Uniform(rng)
    ensures mealTotal == DrawMeal(cfg, rng, start).0.Total(cfg.taxRate)
    ensures next == DrawMeal(cfg, rng, start).1
  {
    var preTaxTotal, pos := OrderMeal(cfg, rng, start);
    var tipRate := TipRate(cfg.tipWeights, cfg.tipRates, rng, pos);
    var tip := Charge(preTaxTotal, tipRate);
    var tax := Charge(preTaxTotal, cfg.taxRate);
    mealTotal := preTaxTotal + tip + tax;
    next := pos + 1;
  }

  /** One pass of the meal loop as a step: from a variate, the meal's total and the next meal's first variate. */
  function MealStep(cfg: Config, rng: Stream): (step: nat --> (real, nat))
    requires Valid(cfg) && Uniform(rng)
    ensures forall pos :: step.requires(pos)
  {
    pos requires Valid(cfg) && Uniform(rng) =>
      (DrawMeal(cfg, rng, pos).0.Total(cfg.taxRate), DrawMeal(cfg, rng, pos).1)
  }

  /**
   * The totals of the first `n` meals drawn from the seeded generator, one per meal in the
   * order drawn, and the first variate after them.
   */
  function Meals(cfg: Config, rng: Stream, n: nat): (r: (seq<real>, nat))
    requires Valid(cfg) && Uniform(rng)
    ensures |r.0| == n
  {
    Repeat(MealStep(cfg, rng), n)
  }

  /** The script's `for ind in range(0, n_runs)` loop, appending one meal total per pass. */
  method Simulate(cfg: Config, rng: Stream) returns (total: seq<real>)
    requires Valid(cfg) && Uniform(rng)
    ensures |total| == cfg.runs
    ensures total == Meals(cfg, rng, cfg.runs).0
  {
    total := [];
    var pos := 0;
    for ind := 0 to cfg.runs
      invariant (total, pos) == Meals(cfg, rng, ind)
    {
      var mealTotal;
      mealTotal, pos := SimulateMeal(cfg, rng, pos);
      total := total + [mealTotal];
    }
  }

  /** The gift card amount and the extra cash. */
  datatype Gift = Gift(card: real, cash: real)

  /**
   * The gift card covers the median meal; card and cash together cover the 90th percentile,
   * so the cash is never negative.
   */
  function Split(total: seq<real>): (g: Gift)
    requires |total| > 0
    ensures g.card == Percentile(total, 50.0)
    ensures g.card + g.cash == Percentile(total, 90.0)
    ensures g.cash >= 0.0
  {
    PercentileMonotone(total, 50.0, 90.0);
    var card := Percentile(total, 50.0);
    Gift(card, Percentile(total, 90.0) - card)
  }

  /** The gift card and the cash together never fall outside the range of the meal totals. */
  lemma SplitWithin(total: seq<real>, lo: real, hi: real)
    requires |total| > 0
    requires forall i :: 0 <= i < |total| ==> lo <= total[i] <= hi
    ensures lo <= Split(total).card <= Split(total).card + Split(total).cash <= hi
  {
  }

  /** The whole script, short of printing and plotting: simulate, then split. */
  method Run(cfg: Config, rng: Stream) returns (total: seq<real>, gift: Gift)
    requires Valid(cfg) && Uniform(rng) && cfg.runs >= 1
    ensures total == Meals(cfg, rng, cfg.runs).0
    ensures gift == Split(total)
    ensures gift.cash >= 0.0
  {
    total := Simulate(cfg, rng);
    gift := Split(total);
  }

  // Properties of the model

  /** The k-th of the drinks poured from `pos` is the drink priced with variates `pos + 2k`, `pos + 2k + 1`. */
  lemma {:induction false} PourAt(cfg: Config, rng: Stream, pos: nat, n: nat, k: nat)
    requires Valid(cfg) && Uniform(rng) && k < n
    ensures Pour(cfg, rng, pos, n)[k] == Drink(cfg, rng, pos + 2 * k)
  {
    if k < n - 1 {
      PourAt(cfg, rng, pos, n - 1, k);
    }
  }

  /** Every drink poured is a cocktail or a beer, and all are cocktails when Lauren's probability is 1 or more. */
  lemma DrinksFromMenu(cfg: Config, rng: Stream, pos: nat, n: nat)
    requires Valid(cfg) && Uniform(rng)
    ensures forall k :: 0 <= k < n ==> Pour(cfg, rng, pos, n)[k] in cfg.cocktails || Pour(cfg, rng, pos, n)[k] in cfg.beers
    ensures cfg.laurenCocktail >= 1.0 ==> forall k :: 0 <= k < n ==> Pour(cfg, rng, pos, n)[k] in cfg.cocktails
  {
    forall k | 0 <= k < n
      ensures Pour(cfg, rng, pos, n)[k] == Drink(cfg, rng, pos + 2 * k)
    {
      PourAt(cfg, rng, pos, n, k);
    }
  }

  /**
   * Each diner's drawn drinks are cocktails or beers, and all are cocktails when Lauren's
   * probability is 1 or more.
   */
  lemma DrawnDrinks(cfg: Config, rng: Stream, pos: nat)
    requires Valid(cfg) && Uniform(rng)
    ensures var (derek, lauren, _) := DrawDrinks(cfg, rng, pos);
      && (forall k :: 0 <= k < |derek| ==> derek[k] in cfg.cocktails || derek[k] in cfg.beers)
      && (forall k :: 0 <= k < |lauren| ==> lauren[k] in cfg.cocktails || lauren[k] in cfg.beers)
      && (cfg.laurenCocktail >= 1.0 ==> forall k :: 0 <= k < |derek| ==> derek[k] in cfg.cocktails)
      && (cfg.laurenCocktail >= 1.0 ==> forall k :: 0 <= k < |lauren| ==> lauren[k] in cfg.cocktails)
  {
    var derekNum := Categorical(cfg.derekDrinks, rng(pos));
    var laurenNum := Categorical(cfg.laurenDrinks, rng(pos + 1));
    DrinksFromMenu(cfg, rng, pos + 2, derekNum);
    DrinksFromMenu(cfg, rng, pos + 2 + 2 * derekNum, laurenNum);
  }

  /**
   * The shape of a drawn meal: every count is one of its weight vector's outcomes with
   * positive weight, and the next meal starts after this one.
   */
  lemma MealCounts(cfg: Config, rng: Stream, pos: nat)
    requires Valid(cfg) && Uniform(rng)
    ensures var (m, next) := DrawMeal(cfg, rng, pos);
      && next == pos + 7 + 2 * (|m.derekDrinks| + |m.laurenDrinks|)
           + |m.appetizers| + |m.entrees| + |m.sides| + |m.desserts|
      && |m.derekDrinks| < |cfg.derekDrinks| && cfg.derekDrinks[|m.derekDrinks|] > 0.0
      && |m.laurenDrinks| < |cfg.laurenDrinks| && cfg.laurenDrinks[|m.laurenDrinks|] > 0.0
      && |m.appetizers| < |cfg.appetizer.quantity| && cfg.appetizer.quantity[|m.appetizers|] > 0.0
      && |m.entrees| < |cfg.entree.quantity| && cfg.entree.quantity[|m.entrees|] > 0.0
      && |m.sides| < |cfg.side.quantity| && cfg.side.quantity[|m.sides|] > 0.0
      && |m.desserts| < |cfg.dessert.quantity| && cfg.dessert.quantity[|m.desserts|] > 0.0
  {
  }

  /** Every price in a drawn meal comes from the menu, and the tip rate is one of the tip rates. */
  lemma MealFromMenu(cfg: Config, rng: Stream, pos: nat)
    requires Valid(cfg) && Uniform(rng)
    ensures var m := DrawMeal(cfg, rng, pos).0;
      && (forall k :: 0 <= k < |m.derekDrinks| ==> m.derekDrinks[k] in cfg.cocktails || m.derekDrinks[k] in cfg.beers)
      && (forall k :: 0 <= k < |m.laurenDrinks| ==> m.laurenDrinks[k] in cfg.cocktails || m.laurenDrinks[k] in cfg.beers)
      && (forall k :: 0 <= k < |m.appetizers| ==> m.appetizers[k] in cfg.appetizer.prices)
      && (forall k :: 0 <= k < |m.entrees| ==> m.entrees[k] in cfg.entree.prices)
      && (forall k :: 0 <= k < |m.sides| ==> m.sides[k] in cfg.side.prices)
      && (forall k :: 0 <= k < |m.desserts| ==> m.desserts[k] in cfg.dessert.prices)
      && m.tipRate in cfg.tipRates
  {
    DrawnDrinks(cfg, rng, pos);
  }

  /** With Lauren's cocktail probability at 1 or more, every drink either diner has is a cocktail. */
  lemma OnlyCocktails(cfg: Config, rng: Stream, pos: nat)
    requires Valid(cfg) && Uniform(rng) && cfg.laurenCocktail >= 1.0
    ensures var m := DrawMeal(cfg, rng, pos).0;
      && (forall k :: 0 <= k < |m.derekDrinks| ==> m.derekDrinks[k] in cfg.cocktails)
      && (forall k :: 0 <= k < |m.laurenDrinks| ==> m.laurenDrinks[k] in cfg.cocktails)
  {
    DrawnDrinks(cfg, rng, pos);
  }

  /** The total is the pre-tax total scaled by one plus the tip rate plus the tax rate. */
  lemma TotalFactored(m: Meal, taxRate: real)
    ensures m.Total(taxRate) == m.PreTax() * (1.0 + m.tipRate + taxRate)
  {
  }

  /** No negative price, tip rate or tax rate on the menu. */
  predicate NonNegativeMenu(cfg: Config)
  {
    && NonNegative(cfg.cocktails)
    && NonNegative(cfg.beers)
    && NonNegative(cfg.appetizer.prices)
    && NonNegative(cfg.entree.prices)
    && NonNegative(cfg.side.prices)
    && NonNegative(cfg.dessert.prices)
    && NonNegative(cfg.tipRates)
    && cfg.taxRate >= 0.0
  }

  /** Items each taken from one of two price lists without negative prices cost nothing negative in total. */
  lemma PickedNonNegative(s: seq<real>, a: seq<real>, b: seq<real>)
    requires NonNegative(a) && NonNegative(b)
    requires forall k :: 0 <= k < |s| ==> s[k] in a || s[k] in b
    ensures Sum(s) >= 0.0
  {
    SumNonNegative(s);
  }

  /** With no negative prices or rates, a drawn meal's pre-tax total and tip rate are not negative. */
  lemma MealNonNegative(cfg: Config, rng: Stream, pos: nat)
    requires Valid(cfg) && Uniform(rng) && NonNegativeMenu(cfg)
    ensures DrawMeal(cfg, rng, pos).0.PreTax() >= 0.0
    ensures DrawMeal(cfg, rng, pos).0.tipRate >= 0.0
  {
    var m := DrawMeal(cfg, rng, pos).0;
    MealFromMenu(cfg, rng, pos);
    PickedNonNegative(m.derekDrinks, cfg.cocktails, cfg.beers);
    PickedNonNegative(m.laurenDrinks, cfg.cocktails, cfg.beers);
    PickedNonNegative(m.appetizers, cfg.appetizer.prices, cfg.appetizer.prices);
    PickedNonNegative(m.entrees, cfg.entree.prices, cfg.entree.prices);
    PickedNonNegative(m.sides, cfg.side.prices, cfg.side.prices);
    PickedNonNegative(m.desserts, cfg.dessert.prices, cfg.dessert.prices);
  }

  /** With no negative prices or rates, a meal costs at least its pre-tax total, which is not negative. */
  lemma MealTotalBounds(cfg: Config, rng: Stream, pos: nat)
    requires Valid(cfg) && Uniform(rng) && NonNegativeMenu(cfg)
    ensures var m := DrawMeal(cfg, rng, pos).0;
      0.0 <= m.PreTax() <= m.Total(cfg.taxRate)
  {
    MealNonNegative(cfg, rng, pos);
  }

  /** Drawing more meals only appends: the first `m` totals of `n` meals are the totals of `m` meals. */
  lemma MealsPrefix(cfg: Config, rng: Stream, m: nat, n: nat)
    requires Valid(cfg) && Uniform(rng) && m <= n
    ensures Meals(cfg, rng, n).0[..m] == Meals(cfg, rng, m).0
  {
    RepeatPrefix(MealStep(cfg, rng), m, n);
  }

  /** The i-th total is the total of the meal drawn where the first `i` meals left off. */
  lemma MealsEntry(cfg: Config, rng: Stream, n: nat, i: nat)
    requires Valid(cfg) && Uniform(rng) && i < n
    ensures Meals(cfg, rng, n).0[i] == DrawMeal(cfg, rng, Meals(cfg, rng, i).1).0.Total(cfg.taxRate)
  {
    RepeatEntry(MealStep(cfg, rng), n, i);
  }

  /** With no negative prices or rates, no simulated meal total is negative. */
  lemma SamplesNonNegative(cfg: Config, rng: Stream, n: nat)
    requires Valid(cfg) && Uniform(rng) && NonNegativeMenu(cfg)
    ensures forall i :: 0 <= i < n ==> Meals(cfg, rng, n).0[i] >= 0.0
  {
    forall i | 0 <= i < n
      ensures Meals(cfg, rng, n).0[i] >= 0.0
    {
      MealsEntry(cfg, rng, n, i);
      MealTotalBounds(cfg, rng, Meals(cfg, rng, i).1);
    }
  }

  /** With no negative prices or rates, the gift card amount is not negative either. */
  lemma GiftNonNegative(cfg: Config, rng: Stream)
    requires Valid(cfg) && Uniform(rng) && NonNegativeMenu(cfg) && cfg.runs >= 1
    ensures Split(Meals(cfg, rng, cfg.runs).0).card >= 0.0
  {
    SamplesNonNegative(cfg, rng, cfg.runs);
  }

  /** Derek's cocktail probability is never consulted: changing it changes no drink. */
  lemma {:induction false} PourIgnoresDerekCocktail(cfg: Config, c: real, rng: Stream, pos: nat, n: nat)
    requires Valid(cfg) && Uniform(rng)
    ensures Pour(cfg.(derekCocktail := c), rng, pos, n) == Pour(cfg, rng, pos, n)
  {
    if n > 0 {
      PourIgnoresDerekCocktail(cfg, c, rng, pos, n - 1);
    }
  }

  /** Derek's cocktail probability is never consulted: changing it changes neither diner's drinks. */
  lemma DrinksIgnoreDerekCocktail(cfg: Config, c: real, rng: Stream, pos: nat)
    requires Valid(cfg) && Uniform(rng)
    ensures DrawDrinks(cfg.(derekCocktail := c), rng, pos) == DrawDrinks(cfg, rng, pos)
  {
    var derekNum := Categorical(cfg.derekDrinks, rng(pos));
    var laurenNum := Categorical(cfg.laurenDrinks, rng(pos + 1));
    PourIgnoresDerekCocktail(cfg, c, rng, pos + 2, derekNum);
    PourIgnoresDerekCocktail(cfg, c, rng, pos + 2 + 2 * derekNum, laurenNum);
  }

  /** Derek's cocktail probability is never consulted: changing it changes no meal. */
  lemma MealIgnoresDerekCocktail(cfg: Config, c: real, rng: Stream, pos: nat)
    requires Valid(cfg) && Uniform(rng)
    ensures DrawMeal(cfg.(derekCocktail := c), rng, pos) == DrawMeal(cfg, rng, pos)
  {
    DrinksIgnoreDerekCocktail(cfg, c, rng, pos);
  }

  /** Derek's cocktail probability is never consulted: changing it changes no simulated total. */
  lemma SimulationIgnoresDerekCocktail(cfg: Config, c: real, rng: Stream, n: nat)
    requires Valid(cfg) && Uniform(rng)
    ensures Meals(cfg.(derekCocktail := c), rng, n) == Meals(cfg, rng, n)
  {
    var other := cfg.(derekCocktail := c);
    forall pos: nat
      ensures MealStep(other, rng)(pos) == MealStep(cfg, rng)(pos)
    {
      MealIgnoresDerekCocktail(cfg, c, rng, pos);
    }
    RepeatSameSteps(MealStep(other, rng), MealStep(cfg, rng), n);
  }

  /** A configuration in which nobody ever orders anything: every count has all its weight on 0. */
  predicate OrdersNothing(cfg: Config)
  {
    && |cfg.derekDrinks| > 0 && cfg.derekDrinks[0] == 1.0
    && |cfg.laurenDrinks| > 0 && cfg.laurenDrinks[0] == 1.0
    && |cfg.appetizer.quantity| > 0 && cfg.appetizer.quantity[0] == 1.0
    && |cfg.entree.quantity| > 0 && cfg.entree.quantity[0] == 1.0
    && |cfg.side.quantity| > 0 && cfg.side.quantity[0] == 1.0
    && |cfg.dessert.quantity| > 0 && cfg.dessert.quantity[0] == 1.0
  }

  /** A course whose weight is all on 0 items is never ordered. */
  lemma CourseNotOrdered(c: Course, rng: Stream, pos: nat)
    requires ValidCourse(c) && Uniform(rng) && c.quantity[0] == 1.0
    ensures DrawCourse(c, rng, pos) == []
  {
    CertainOutcome(c.quantity, rng(pos), 0);
  }

  /** When nobody orders anything, every meal costs nothing, tip and tax included. */
  lemma EmptyMeal(cfg: Config, rng: Stream, pos: nat)
    requires Valid(cfg) && Uniform(rng) && OrdersNothing(cfg)
    ensures DrawMeal(cfg, rng, pos).0.Total(cfg.taxRate) == 0.0
  {
    CertainOutcome(cfg.derekDrinks, rng(pos), 0);
    CertainOutcome(cfg.laurenDrinks, rng(pos + 1), 0);
    var p2 := DrawDrinks(cfg, rng, pos).2;
    var p3 := CourseEnd(cfg.appetizer, rng, p2);
    var p4 := CourseEnd(cfg.entree, rng, p3);
    var p5 := CourseEnd(cfg.side, rng, p4);
    CourseNotOrdered(cfg.appetizer, rng, p2);
    CourseNotOrdered(cfg.entree, rng, p3);
    CourseNotOrdered(cfg.side, rng, p4);
    CourseNotOrdered(cfg.dessert, rng, p5);
  }

  /** When nobody orders anything, the gift card and the cash are both 0. */
  lemma NothingOrdered(cfg: Config, rng: Stream)
    requires Valid(cfg) && Uniform(rng) && OrdersNothing(cfg) && cfg.runs >= 1
    ensures Split(Meals(cfg, rng, cfg.runs).0) == Gift(0.0, 0.0)
  {
    var total := Meals(cfg, rng, cfg.runs).0;
    forall i | 0 <= i < |total|
      ensures total[i] == 0.0
    {
      MealsEntry(cfg, rng, cfg.runs, i);
      EmptyMeal(cfg, rng, Meals(cfg, rng, i).1);
    }
    PercentileOfConstant(total, 50.0, 0.0);
    PercentileOfConstant(total, 90.0, 0.0);
  }

  /**
   * A configuration in which the table always orders exactly one entree and nothing else, and
   * pays neither tip nor tax.
   */
  predicate OneEntreeOnly(cfg: Config)
  {
    && |cfg.derekDrinks| > 0 && cfg.derekDrinks[0] == 1.0
    && |cfg.laurenDrinks| > 0 && cfg.laurenDrinks[0] == 1.0
    && |cfg.appetizer.quantity| > 0 && cfg.appetizer.quantity[0] == 1.0
    && |cfg.entree.quantity| > 1 && cfg.entree.quantity[1] == 1.0
    && |cfg.side.quantity| > 0 && cfg.side.quantity[0] == 1.0
    && |cfg.dessert.quantity| > 0 && cfg.dessert.quantity[0] == 1.0
    && (forall k :: 0 <= k < |cfg.tipRates| ==> cfg.tipRates[k] == 0.0)
    && cfg.taxRate == 0.0
  }

  /** A course whose weight is all on 1 item costs one price from its list. */
  lemma CourseOfOne(c: Course, rng: Stream, pos: nat)
    requires ValidCourse(c) && Uniform(rng) && |c.quantity| > 1 && c.quantity[1] == 1.0
    ensures |DrawCourse(c, rng, pos)| == 1
    ensures Sum(DrawCourse(c, rng, pos)) in c.prices
  {
    CertainOutcome(c.quantity, rng(pos), 1);
    var picked := DrawCourse(c, rng, pos);
    assert picked[..0] == [];
  }

  /** When the table orders one entree and nothing else, without tip or tax, a meal costs one entree price. */
  lemma OneEntreeMeal(cfg: Config, rng: Stream, pos: nat)
    requires Valid(cfg) && Uniform(rng) && OneEntreeOnly(cfg)
    ensures DrawMeal(cfg, rng, pos).0.Total(cfg.taxRate) in cfg.entree.prices
  {
    CertainOutcome(cfg.derekDrinks, rng(pos), 0);
    CertainOutcome(cfg.laurenDrinks, rng(pos + 1), 0);
    var p2 := DrawDrinks(cfg, rng, pos).2;
    var p3 := CourseEnd(cfg.appetizer, rng, p2);
    var p4 := CourseEnd(cfg.entree, rng, p3);
    var p5 := CourseEnd(cfg.side, rng, p4);
    CourseNotOrdered(cfg.appetizer, rng, p2);
    CourseOfOne(cfg.entree, rng, p3);
    CourseNotOrdered(cfg.side, rng, p4);
    CourseNotOrdered(cfg.dessert, rng, p5);
  }

  /**
   * When the table orders one entree and nothing else, without tip or tax, the gift card and
   * the cash together lie between the cheapest and the dearest entree.
   */
  lemma OneEntreeGift(cfg: Config, rng: Stream, lo: real, hi: real)
    requires Valid(cfg) && Uniform(rng) && OneEntreeOnly(cfg) && cfg.runs >= 1
    requires forall j :: 0 <= j < |cfg.entree.prices| ==> lo <= cfg.entree.prices[j] <= hi
    ensures var g := Split(Meals(cfg, rng, cfg.runs).0);
      lo <= g.card <= g.card + g.cash <= hi
  {
    var total := Meals(cfg, rng, cfg.runs).0;
    forall i | 0 <= i < |total|
      ensures lo <= total[i] <= hi
    {
      MealsEntry(cfg, rng, cfg.runs, i);
      OneEntreeMeal(cfg, rng, Meals(cfg, rng, i).1);
    }
    SplitWithin(total, lo, hi);
  }
}
