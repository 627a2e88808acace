/**
 * The console demo's free-mixing mode: the player adds ingredients by
 * number and amount, and on mixing the selection is either recognised as a
 * catalog recipe (the first one it resembles, scored by the engine) or scored
 * as a creation of its own.
 */
module Demo {
  import opened Wrappers
  import opened Dicts
  import opened Domain
  import opened Selection
  import Cocktail

  function Max(a: int, b: int): int {
    if a >= b then a else b
  }

  /** The ingredients two amount maps share. */
  function Common(r1: Dict<string, int>, r2: Dict<string, int>): (c: set<string>)
    ensures forall k :: k in c <==> k in r1.items && k in r2.items
  {
    r1.items.Keys * r2.items.Keys
  }

  /**
   * `abs(a1 - a2) / max(a1, a2) > 0.3` fails, multiplied out.  A negative
   * maximum gives a non-positive ratio, which never exceeds the tolerance.
   * At a zero maximum the source divides by zero; `Divisible` keeps callers
   * away from it, so the value given here is never consulted.
   */
  predicate Close(a1: int, a2: int) {
    var m := Max(a1, a2);
    m > 0 ==> 10 * Cocktail.Abs(a1 - a2) <= 3 * m
  }

  /** Where the source actually divides, `Close` is its tolerance test. */
  lemma CloseIsTolerance(a1: int, a2: int)
    requires Max(a1, a2) != 0
    ensures Close(a1, a2) <==> !(Cocktail.Abs(a1 - a2) as real / Max(a1, a2) as real > 0.3)
  {
    var d, m := Cocktail.Abs(a1 - a2) as real, Max(a1, a2) as real;
    if m > 0.0 {
      Cocktail.ScaledComparison(d, m, 0.3);
    } else {
      assert d / m == -(d / -m);
      assert d / -m >= 0.0;
    }
  }

  /** The comparison never divides by zero: with two or more shared keys, no shared pair has maximum 0. */
  ghost predicate Divisible(r1: Dict<string, int>, r2: Dict<string, int>) {
    |Common(r1, r2)| >= 2 ==> forall k :: k in Common(r1, r2) ==> Max(r1.items[k], r2.items[k]) != 0
  }

  /** Positive amounts, which both the demo's selections and catalog recipes have, are always divisible. */
  lemma PositiveDivisible(r1: Dict<string, int>, r2: Dict<string, int>)
    requires AllPositive(r1)
    ensures Divisible(r1, r2)
  {
  }

  /** `_recipes_similar`: at least two shared ingredients, each within 30% of the larger amount. */
  ghost predicate Similar(r1: Dict<string, int>, r2: Dict<string, int>) {
    && |Common(r1, r2)| >= 2
    && forall k :: k in Common(r1, r2) ==> Close(r1.items[k], r2.items[k])
  }

  /** Fewer than two shared ingredients is never similar, whatever the amounts. */
  lemma FewCommonNotSimilar(r1: Dict<string, int>, r2: Dict<string, int>)
    requires |Common(r1, r2)| < 2
    ensures !Similar(r1, r2)
  {
  }

  /** Unlike the free-mixing bench's match, similarity does not depend on argument order. */
  lemma SimilarSymmetric(r1: Dict<string, int>, r2: Dict<string, int>)
    ensures Similar(r1, r2) <==> Similar(r2, r1)
    ensures Divisible(r1, r2) <==> Divisible(r2, r1)
  {
    assert Common(r1, r2) == Common(r2, r1);
    forall k | k in Common(r1, r2)
      ensures Close(r1.items[k], r2.items[k]) <==> Close(r2.items[k], r1.items[k])
    {
      assert Cocktail.Abs(r1.items[k] - r2.items[k]) == Cocktail.Abs(r2.items[k] - r1.items[k]);
    }
  }

  /** The loop of `_recipes_similar` over the shared ingredients, with its early returns. */
  method RecipesSimilar(r1: Dict<string, int>, r2: Dict<string, int>) returns (similar: bool)
    requires Divisible(r1, r2)
    ensures similar == Similar(r1, r2)
  {
    var common := r1.items.Keys * r2.items.Keys;
    if |common| < 2 {
      return false;
    }
    var rest := common;
    while rest != {}
      invariant rest <= common
      invariant forall k :: k in common - rest ==> Close(r1.items[k], r2.items[k])
      decreases rest
    {
      var k :| k in rest;
      if !Close(r1.items[k], r2.items[k]) {
        return false;
      }
      rest := rest - {k};
    }
    return true;
  }

  /** The recipe at position `i` of the catalog resembles the selection. */
  ghost predicate SimilarAt(sel: Amounts, recipes: Dict<string, Recipe>, i: int)
    requires recipes.Valid() && 0 <= i < |recipes.keys|
  {
    Similar(sel, recipes.items[recipes.keys[i]].ingredients)
  }

  /** None of the first `i` recipes in catalog order resembles the selection. */
  ghost predicate NoSimilarBefore(sel: Amounts, recipes: Dict<string, Recipe>, i: int)
    requires recipes.Valid() && i <= |recipes.keys|
  {
    forall j :: 0 <= j < i ==> !SimilarAt(sel, recipes, j)
  }

  /** The matching loop of `_mix_free_cocktail`: the first similar recipe in catalog order, if any. */
  method FindSimilar(sel: Amounts, recipes: Dict<string, Recipe>) returns (matched: Option<string>)
    requires AllPositive(sel) && recipes.Valid()
    ensures matched.Some? <==> !NoSimilarBefore(sel, recipes, |recipes.keys|)
    ensures forall i | 0 <= i < |recipes.keys| && SimilarAt(sel, recipes, i) && NoSimilarBefore(sel, recipes, i) ::
      matched == Some(recipes.keys[i])
  {
    var i := 0;
    while i < |recipes.keys|
      invariant 0 <= i <= |recipes.keys|
      invariant NoSimilarBefore(sel, recipes, i)
    {
      var similar := SimilarStep(sel, recipes, i);
      if similar {
        return Some(recipes.keys[i]);
      }
      i := i + 1;
    }
    return None;
  }

  /** One round of the matching loop: is the `i`-th recipe similar? */
  method SimilarStep(sel: Amounts, recipes: Dict<string, Recipe>, i: int) returns (similar: bool)
    requires AllPositive(sel) && recipes.Valid() && 0 <= i < |recipes.keys|
    ensures similar == SimilarAt(sel, recipes, i)
  {
    var candidate := recipes.items[recipes.keys[i]].ingredients;
    PositiveDivisible(sel, candidate);
    similar := RecipesSimilar(sel, candidate);
  }

  /** Some of `names` is an ingredient whose type label is `value`: one `any(...)` of the free score. */
  function HasType(catalog: Dict<string, Ingredient>, names: seq<string>, value: string): (b: bool)
    requires forall i :: 0 <= i < |names| ==> names[i] in catalog.items
    ensures b <==> exists i :: 0 <= i < |names| && TypeValue(catalog.items[names[i]].kind) == value
  {
    if names == [] then false
    else
      var last := |names| - 1;
      HasType(catalog, names[..last], value) || TypeValue(catalog.items[names[last]].kind) == value
  }

  /** The size term: +10 for three to six ingredients, -5 for more, nothing for fewer. */
  function SizeBonus(n: nat): int {
    if 3 <= n <= 6 then 10 else if n > 6 then -5 else 0
  }

  /** Every selected name is a catalog ingredient, because the free score looks each one up. */
  ghost predicate InCatalog(catalog: Dict<string, Ingredient>, sel: Amounts) {
    sel.Valid() && forall k :: k in sel.items ==> k in catalog.items
  }

  /** `_evaluate_free_cocktail`: 50, +20 base spirit, +15 mixer, +10 garnish, the size term, clamped to [0, 100]. */
  function FreeScore(catalog: Dict<string, Ingredient>, sel: Amounts): (s: int)
    requires InCatalog(catalog, sel)
    ensures 0 <= s <= 100
  {
    var raw := 50
      + (if HasType(catalog, sel.keys, "基酒") then 20 else 0)
      + (if HasType(catalog, sel.keys, "调和剂") then 15 else 0)
      + (if HasType(catalog, sel.keys, "装饰") then 10 else 0)
      + SizeBonus(|sel.keys|);
    if raw > 100 then 100 else if raw < 0 then 0 else raw
  }

  /** The selection holds an ingredient of type `t`. */
  ghost predicate Holds(catalog: Dict<string, Ingredient>, sel: Amounts, t: IngredientType)
    requires InCatalog(catalog, sel)
  {
    exists k :: k in sel.items && catalog.items[k].kind == t
  }

  /** Each `any(...)` holds exactly when the selection holds an ingredient of that type. */
  lemma HasTypeIsHolds(catalog: Dict<string, Ingredient>, sel: Amounts, t: IngredientType)
    requires InCatalog(catalog, sel)
    ensures HasType(catalog, sel.keys, TypeValue(t)) <==> Holds(catalog, sel, t)
  {
    if HasType(catalog, sel.keys, TypeValue(t)) {
      var i :| 0 <= i < |sel.keys| && TypeValue(catalog.items[sel.keys[i]].kind) == TypeValue(t);
      TypeValuesDistinct(catalog.items[sel.keys[i]].kind, t);
      assert catalog.items[sel.keys[i]].kind == t;
    }
    if Holds(catalog, sel, t) {
      var k :| k in sel.items && catalog.items[k].kind == t;
      var i :| 0 <= i < |sel.keys| && sel.keys[i] == k;
    }
  }

  /** The free score is never below 45, so its clamp at 0 never applies. */
  lemma FreeScoreAtLeast45(catalog: Dict<string, Ingredient>, sel: Amounts)
    requires InCatalog(catalog, sel)
    ensures 45 <= FreeScore(catalog, sel)
  {
  }

  /** A full 100 needs a base spirit, a mixer, a garnish and three to six ingredients, and these suffice. */
  lemma FreeScorePerfect(catalog: Dict<string, Ingredient>, sel: Amounts)
    requires InCatalog(catalog, sel)
    ensures FreeScore(catalog, sel) == 100 <==>
      Holds(catalog, sel, BaseSpirit) && Holds(catalog, sel, Mixer) && Holds(catalog, sel, Garnish) && 3 <= |sel.keys| <= 6
  {
    HasTypeIsHolds(catalog, sel, BaseSpirit);
    HasTypeIsHolds(catalog, sel, Mixer);
    HasTypeIsHolds(catalog, sel, Garnish);
  }

  /** An empty selection scores the base 50. */
  lemma EmptyFreeScore(catalog: Dict<string, Ingredient>)
    ensures FreeScore(catalog, Empty()) == 50
  {
  }

  /** The free-mix bands. */
  function FreeGrade(score: int): (g: string)
    ensures score >= 80 ==> g == "创意十足！"
    ensures 60 <= score < 80 ==> g == "不错的尝试！"
    ensures score < 60 ==> g == "继续努力！"
  {
    if score >= 80 then "创意十足！" else if score >= 60 then "不错的尝试！" else "继续努力！"
  }

  /** A base spirit with a mixer always earns the top free-mix band, whatever else is added. */
  lemma BaseAndMixerAreCreative(catalog: Dict<string, Ingredient>, sel: Amounts)
    requires InCatalog(catalog, sel)
    requires Holds(catalog, sel, BaseSpirit) && Holds(catalog, sel, Mixer)
    ensures FreeGrade(FreeScore(catalog, sel)) == "创意十足！"
  {
    HasTypeIsHolds(catalog, sel, BaseSpirit);
    HasTypeIsHolds(catalog, sel, Mixer);
  }

  /** Without a base spirit the top band is out of reach. */
  lemma NoBaseSpiritNotCreative(catalog: Dict<string, Ingredient>, sel: Amounts)
    requires InCatalog(catalog, sel)
    requires !Holds(catalog, sel, BaseSpirit)
    ensures FreeScore(catalog, sel) <= 85
    ensures !Holds(catalog, sel, Mixer) ==> FreeGrade(FreeScore(catalog, sel)) != "创意十足！"
  {
    HasTypeIsHolds(catalog, sel, BaseSpirit);
    HasTypeIsHolds(catalog, sel, Mixer);
  }

  /** The name a free cocktail is shown under: the matched recipe, unless none matched or its name is empty. */
  function CocktailName(matched: Option<string>): (name: string)
    ensures matched.Some? && matched.value != "" ==> name == matched.value
    ensures matched.None? || matched.value == "" ==> name == "创意鸡尾酒"
  {
    if matched.Some? && matched.value != "" then matched.value else "创意鸡尾酒"
  }

  /**
   * The `selected_ingredients` dict of the free-mixing loop, filled by
   * `_add_ingredient_interactive` and handed to `_mix_free_cocktail`.
   */
  class FreeMixSession {
    const system: Cocktail.CocktailSystem
    var selected: Amounts

    ghost predicate Valid()
      reads this, system
    {
      && system.Valid()
      && InCatalog(system.ingredients, selected)
      && AllPositive(selected)
    }

    constructor (system: Cocktail.CocktailSystem)
      requires system.Valid()
      ensures Valid() && this.system == system && selected == Empty()
    {
      this.system := system;
      selected := Empty();
    }

    /**
     * `_add_ingredient_interactive` with the answers `choice` (the number
     * typed, less one) and `amount`.  The prompts ask again until the number
     * names an available ingredient and the amount is positive; an answer the
     * prompts would refuse changes nothing here.
     */
    method AddIngredientInteractive(choice: int, amount: int) returns (accepted: bool)
      requires Valid()
      modifies this
      ensures Valid()
      ensures accepted <==> 0 <= choice < |system.inventory| && amount > 0
      ensures accepted ==> selected == Accumulate(old(selected), system.inventory[choice], amount)
      ensures !accepted ==> selected == old(selected)
    {
      var available := system.AvailableIngredients();
      accepted := 0 <= choice < |available| && amount > 0;
      if accepted {
        var name := available[choice].name;
        AccumulateKeepsPositive(selected, name, amount);
        selected := Accumulate(selected, name, amount);
      }
    }

    /** Menu action 3: `selected_ingredients.clear()`. */
    method Clear()
      requires Valid()
      modifies this
      ensures Valid() && selected == Empty()
    {
      selected := Empty();
    }

    /**
     * What mixing the current selection yields: a score in 0..100; with no
     * similar catalog recipe the name "创意鸡尾酒" with the free score and
     * band; otherwise the first similar recipe's name, scored by the engine
     * under that name (or freely when the name is empty).
     */
    ghost predicate MixOutcome(name: string, score: int, evaluation: string)
      requires Valid()
      reads this, system
    {
      && 0 <= score <= 100
      && (NoSimilarBefore(selected, system.recipes, |system.recipes.keys|) ==>
            name == "创意鸡尾酒" && score == FreeScore(system.ingredients, selected) && evaluation == FreeGrade(score))
      && (forall i | 0 <= i < |system.recipes.keys| && SimilarAt(selected, system.recipes, i) &&
            NoSimilarBefore(selected, system.recipes, i) ::
              name == CocktailName(Some(system.recipes.keys[i])) &&
              (system.recipes.keys[i] != "" ==> (score, evaluation) == Cocktail.Evaluate(system.recipes, system.recipes.keys[i], selected)) &&
              (system.recipes.keys[i] == "" ==> score == FreeScore(system.ingredients, selected) && evaluation == FreeGrade(score)))
    }

    /**
     * `_mix_free_cocktail`: the first similar catalog recipe is scored by
     * the engine under its own name; otherwise the selection gets the free
     * score and band under the name "创意鸡尾酒".
     */
    method MixFreeCocktail() returns (name: string, score: int, evaluation: string)
      requires Valid()
      ensures MixOutcome(name, score, evaluation)
    {
      var matched := FindSimilar(selected, system.recipes);
      name := CocktailName(matched);
      if matched.Some? && matched.value != "" {
        score, evaluation := system.CalculateScore(matched.value, selected);
      } else {
        score := FreeScore(system.ingredients, selected);
        evaluation := FreeGrade(score);
      }
    }

    /** Menu action 2: mixing starts only with a non-empty selection. */
    method Start() returns (result: Option<(string, int, string)>)
      requires Valid()
      ensures result.Some? <==> selected.keys != []
      ensures result.Some? ==> MixOutcome(result.value.0, result.value.1, result.value.2)
    {
      if selected.keys == [] {
        return None;
      }
      var name, score, evaluation := MixFreeCocktail();
      return Some((name, score, evaluation));
    }
  }
}
