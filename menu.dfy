/**
 * The configuration edibles.py runs with, and what it implies: Derek always has a drink and
 * Lauren at most one, every drink is a cocktail, and the table always orders exactly two
 * entrees.
 */
module Menu {
  import opened Sums
  import opened Sampling
  import opened Edibles

  /** The constants of the script, prices in dollars and rates as fractions. */
  const Script: Config := Config(
    derekCocktail := 0.7,
    laurenCocktail := 1.0,
    derekDrinks := [0.0, 0.8, 0.2],
    laurenDrinks := [0.2, 0.8, 0.0],
    cocktails := [8.0, 8.0, 9.0, 9.0, 9.0, 10.0, 10.0, 10.0, 12.0, 12.0],
    beers := [6.0, 6.0, 6.0, 6.0, 6.0, 5.0, 6.0, 6.0],
    appetizer := Course([0.2, 0.5, 0.3], [15.0, 9.0, 14.0, 13.0, 14.0, 8.0, 14.0, 8.0, 16.0]),
    entree := Course([0.0, 0.0, 1.0], [16.0, 20.0, 24.0, 30.0, 16.0, 26.0, 19.0, 27.0, 14.0, 27.0, 20.0]),
    side := Course([0.5, 0.3, 0.2], [10.0, 9.0, 9.0, 6.5, 6.5, 6.5, 6.5, 6.5, 6.5]),
    dessert := Course([0.2, 0.3, 0.5], [7.0, 8.0, 7.0]),
    tipWeights := [0.1, 0.3, 0.6],
    tipRates := [0.15, 0.18, 0.20],
    taxRate := 0.08,
    runs := 100000)

  lemma SumOfThree(a: real, b: real, c: real)
    ensures Sum([a, b, c]) == a + b + c
  {
    assert [a][..0] == [];
    assert Sum([a]) == a;
    assert [a, b][..1] == [a];
    assert Sum([a, b]) == a + b;
    assert [a, b, c][..2] == [a, b];
  }

  /** Every weight vector of the script is a distribution, and no list is empty. */
  lemma ScriptValid()
    ensures Valid(Script)
  {
    SumOfThree(0.0, 0.8, 0.2);
    SumOfThree(0.2, 0.8, 0.0);
    SumOfThree(0.2, 0.5, 0.3);
    SumOfThree(0.0, 0.0, 1.0);
    SumOfThree(0.5, 0.3, 0.2);
    SumOfThree(0.2, 0.3, 0.5);
    SumOfThree(0.1, 0.3, 0.6);
  }

  /** No price or rate of the script is negative. */
  lemma ScriptNonNegative()
    ensures NonNegativeMenu(Script)
  {
  }

  /** Items picked from a price list whose prices lie between `lo` and `hi` cost between `|s|` times each. */
  lemma PickedWithin(s: seq<real>, prices: seq<real>, lo: real, hi: real)
    requires forall k :: 0 <= k < |s| ==> s[k] in prices
    requires PricedWithin(prices, lo, hi)
    ensures |s| as real * lo <= Sum(s) <= |s| as real * hi
  {
    SumBounds(s, lo, hi);
  }

  /** A product of two non-negative factors grows with each of them. */
  lemma ProductWithin(a: real, b: real, aLo: real, aHi: real, bLo: real, bHi: real)
    requires 0.0 <= aLo <= a <= aHi && 0.0 <= bLo <= b <= bHi
    ensures aLo * bLo <= a * b <= aHi * bHi
  {
    ProductNonNegative(a - aLo, bLo);
    ProductNonNegative(a, b - bLo);
    ProductNonNegative(aHi - a, b);
    ProductNonNegative(aHi, bHi - b);
  }

  /** Every drink of `m` is a cocktail from `cfg` and every dish comes from its course's list. */
  predicate CocktailsAndDishes(cfg: Config, m: Meal)
  {
    && (forall k :: 0 <= k < |m.derekDrinks| ==> m.derekDrinks[k] in cfg.cocktails)
    && (forall k :: 0 <= k < |m.laurenDrinks| ==> m.laurenDrinks[k] in cfg.cocktails)
    && (forall k :: 0 <= k < |m.appetizers| ==> m.appetizers[k] in cfg.appetizer.prices)
    && (forall k :: 0 <= k < |m.entrees| ==> m.entrees[k] in cfg.entree.prices)
    && (forall k :: 0 <= k < |m.sides| ==> m.sides[k] in cfg.side.prices)
    && (forall k :: 0 <= k < |m.desserts| ==> m.desserts[k] in cfg.dessert.prices)
  }

  /** How many drinks and dishes the script's weights allow. */
  predicate ScriptCounts(m: Meal)
  {
    && 1 <= |m.derekDrinks| <= 2 && |m.laurenDrinks| <= 1
    && |m.appetizers| <= 2 && |m.entrees| == 2 && |m.sides| <= 2 && |m.desserts| <= 2
  }

  /** The meals the script can draw: the counts its weights allow, every price from its lists. */
  predicate ScriptMeal(m: Meal)
  {
    ScriptCounts(m) && CocktailsAndDishes(Script, m) && m.tipRate in Script.tipRates
  }

  /**
   * Weights shaped like the script's: Derek's weight for no drink and Lauren's for two drinks
   * are 0, the entree weights for none and one are 0, and every weight vector has three
   * entries. With Lauren's cocktail probability at 1 as well, every meal drawn has the script's
   * counts and only cocktails to drink.
   */
  lemma ScriptShapedDraws(cfg: Config, rng: Stream, pos: nat)
    requires Valid(cfg) && Uniform(rng) && cfg.laurenCocktail >= 1.0
    requires |cfg.derekDrinks| == 3 && cfg.derekDrinks[0] == 0.0
    requires |cfg.laurenDrinks| == 3 && cfg.laurenDrinks[2] == 0.0
    requires |cfg.appetizer.quantity| == 3 && |cfg.side.quantity| == 3 && |cfg.dessert.quantity| == 3
    requires |cfg.entree.quantity| == 3 && cfg.entree.quantity[0] == 0.0 && cfg.entree.quantity[1] == 0.0
    ensures var m := DrawMeal(cfg, rng, pos).0;
      ScriptCounts(m) && CocktailsAndDishes(cfg, m) && m.tipRate in cfg.tipRates
  {
    ScriptShapedCounts(cfg, rng, pos);
    MealFromMenu(cfg, rng, pos);
    OnlyCocktails(cfg, rng, pos);
  }

  lemma ScriptShapedCounts(cfg: Config, rng: Stream, pos: nat)
    requires Valid(cfg) && Uniform(rng)
    requires |cfg.derekDrinks| == 3 && cfg.derekDrinks[0] == 0.0
    requires |cfg.laurenDrinks| == 3 && cfg.laurenDrinks[2] == 0.0
    requires |cfg.appetizer.quantity| == 3 && |cfg.side.quantity| == 3 && |cfg.dessert.quantity| == 3
    requires |cfg.entree.quantity| == 3 && cfg.entree.quantity[0] == 0.0 && cfg.entree.quantity[1] == 0.0
    ensures ScriptCounts(DrawMeal(cfg, rng, pos).0)
  {
    MealCounts(cfg, rng, pos);
    var m := DrawMeal(cfg, rng, pos).0;
    var derek, lauren, entrees := |m.derekDrinks|, |m.laurenDrinks|, |m.entrees|;
    assert cfg.derekDrinks[derek] > 0.0 && cfg.laurenDrinks[lauren] > 0.0 && cfg.entree.quantity[entrees] > 0.0;
    assert derek != 0 && lauren != 2 && entrees != 0 && entrees != 1;
  }

  /**
   * Every meal drawn with the script's constants is one of its meals: Derek always has one or
   * two drinks, Lauren at most one, all of them cocktails, and the table orders two entrees.
   */
  lemma ScriptDrawsScriptMeals(rng: Stream, pos: nat)
    requires Uniform(rng)
    ensures Valid(Script)
    ensures ScriptMeal(DrawMeal(Script, rng, pos).0)
  {
    ScriptValid();
    ScriptShapedDraws(Script, rng, pos);
  }

  /** Every price on a list lies within `lo` and `hi`. */
  predicate PricedWithin(prices: seq<real>, lo: real, hi: real)
  {
    forall j :: 0 <= j < |prices| ==> lo <= prices[j] <= hi
  }

  /** The cheapest and dearest entries of each of the script's price lists. */
  lemma ScriptPriceRanges()
    ensures PricedWithin(Script.cocktails, 8.0, 12.0)
    ensures PricedWithin(Script.appetizer.prices, 8.0, 16.0)
    ensures PricedWithin(Script.entree.prices, 14.0, 30.0)
    ensures PricedWithin(Script.side.prices, 6.5, 10.0)
    ensures PricedWithin(Script.dessert.prices, 7.0, 8.0)
  {
  }

  /**
   * A meal with the script's counts, drawn from lists priced like the script's, costs between
   * $36 (one cocktail and two entrees at $8 and $14) and $164 before tip and tax.
   */
  lemma PreTaxWithin(cfg: Config, m: Meal)
    requires ScriptCounts(m) && CocktailsAndDishes(cfg, m)
    requires PricedWithin(cfg.cocktails, 8.0, 12.0)
    requires PricedWithin(cfg.appetizer.prices, 8.0, 16.0)
    requires PricedWithin(cfg.entree.prices, 14.0, 30.0)
    requires PricedWithin(cfg.side.prices, 6.5, 10.0)
    requires PricedWithin(cfg.dessert.prices, 7.0, 8.0)
    ensures 36.0 <= m.PreTax() <= 164.0
  {
    PickedWithin(m.derekDrinks, cfg.cocktails, 8.0, 12.0);
    assert 8.0 <= Sum(m.derekDrinks) <= 24.0;
    PickedWithin(m.laurenDrinks, cfg.cocktails, 8.0, 12.0);
    assert 0.0 <= Sum(m.laurenDrinks) <= 12.0;
    PickedWithin(m.appetizers, cfg.appetizer.prices, 8.0, 16.0);
    assert 0.0 <= Sum(m.appetizers) <= 32.0;
    PickedWithin(m.entrees, cfg.entree.prices, 14.0, 30.0);
    assert 28.0 <= Sum(m.entrees) <= 60.0;
    PickedWithin(m.sides, cfg.side.prices, 6.5, 10.0);
    assert 0.0 <= Sum(m.sides) <= 20.0;
    PickedWithin(m.desserts, cfg.dessert.prices, 7.0, 8.0);
    assert 0.0 <= Sum(m.desserts) <= 16.0;
  }

  /** One of the script's meals costs between $36 and $164 before tip and tax. */
  lemma ScriptPreTaxBounds(m: Meal)
    requires ScriptMeal(m)
    ensures 36.0 <= m.PreTax() <= 164.0
  {
    ScriptPriceRanges();
    PreTaxWithin(Script, m);
  }

  /**
   * One of the script's meals costs between $44.28 and $209.92 with tip and tax: the pre-tax
   * bounds scaled by 1.23 (a 15% tip and 8% tax) and by 1.28 (a 20% tip and 8% tax).
   */
  lemma ScriptTotalBounds(m: Meal)
    requires ScriptMeal(m)
    ensures 44.28 <= m.Total(Script.taxRate) <= 209.92
  {
    ScriptPreTaxBounds(m);
    TotalFactored(m, Script.taxRate);
    ProductWithin(m.PreTax(), 1.0 + m.tipRate + 0.08, 36.0, 164.0, 1.23, 1.28);
  }

  /**
   * With the script's constants the gift card covers at least $44.28, and the gift card and
   * the cash together at most $209.92, whatever the generator yields.
   */
  lemma ScriptGiftBounds(rng: Stream)
    requires Uniform(rng)
    ensures Valid(Script)
    ensures var g := Split(Meals(Script, rng, Script.runs).0);
      44.28 <= g.card && g.card + g.cash <= 209.92
  {
    ScriptValid();
    var total := Meals(Script, rng, Script.runs).0;
    forall i | 0 <= i < |total|
      ensures 44.28 <= total[i] <= 209.92
    {
      MealsEntry(Script, rng, Script.runs, i);
      ScriptMealTotal(rng, Meals(Script, rng, i).1);
    }
    SplitWithin(total, 44.28, 209.92);
  }

  /** Every meal drawn with the script's constants costs between $44.28 and $209.92. */
  lemma ScriptMealTotal(rng: Stream, pos: nat)
    requires Uniform(rng)
    ensures Valid(Script)
    ensures 44.28 <= DrawMeal(Script, rng, pos).0.Total(Script.taxRate) <= 209.92
  {
    ScriptDrawsScriptMeals(rng, pos);
    ScriptTotalBounds(DrawMeal(Script, rng, pos).0);
  }
}
