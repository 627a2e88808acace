/**
 * `FreeMixingScreen`: the free-mixing bench.  The player picks an
 * ingredient and types an amount; the bench accumulates a selection, looks
 * for a catalog recipe it matches, and posts the selection when mixing starts.
 */
module FreeMixing {
  import opened Wrappers
  import opened Dicts
  import opened Domain
  import opened Selection
  import opened Grouping
  import Cocktail

  /**
   * `abs(a1 - a2) / a2 > 0.2` fails, multiplied out.  A negative recipe
   * amount gives a non-positive ratio, which never exceeds the tolerance.  At
   * a zero recipe amount the source divides by zero; `Divisible` keeps
   * callers away from it, so the value given here is never consulted.
   */
  predicate WithinFifth(given: int, target: int) {
    target > 0 ==> 5 * Cocktail.Abs(given - target) <= target
  }

  /** Where the source actually divides, `WithinFifth` is its tolerance test. */
  lemma WithinFifthIsTolerance(given: int, target: int)
    requires target != 0
    ensures WithinFifth(given, target) <==> !(Cocktail.Abs(given - target) as real / target as real > 0.2)
  {
    var d, t := Cocktail.Abs(given - target) as real, target as real;
    if t > 0.0 {
      Cocktail.ScaledComparison(d, t, 0.2);
    } else {
      assert d / t == -(d / -t);
      assert d / -t >= 0.0;
    }
  }

  /** The loop divides by each recipe amount only when the key sets agree, and then none of them is zero. */
  ghost predicate Divisible(sel: Amounts, recipe: Dict<string, int>) {
    sel.items.Keys == recipe.items.Keys ==> forall k :: k in recipe.items ==> recipe.items[k] != 0
  }

  /** `_recipes_match`: the same ingredients, each within a fifth of the second argument's amount. */
  ghost predicate Matches(sel: Amounts, recipe: Dict<string, int>) {
    && sel.items.Keys == recipe.items.Keys
    && forall k :: k in sel.items ==> WithinFifth(sel.items[k], recipe.items[k])
  }

  /** The tolerance is measured against the second argument, so swapping them can change the verdict. */
  lemma MatchIsNotSymmetric()
    ensures var a, b := Dict(["冰块"], map["冰块" := 125]), Dict(["冰块"], map["冰块" := 100]);
      !Matches(a, b) && Matches(b, a)
  {
    var a, b := Dict(["冰块"], map["冰块" := 125]), Dict(["冰块"], map["冰块" := 100]);
    assert !WithinFifth(a.items["冰块"], b.items["冰块"]);
  }

  /** The loop of `_recipes_match`, with its early returns. */
  method RecipesMatch(sel: Amounts, recipe: Dict<string, int>) returns (matched: bool)
    requires sel.Valid() && Divisible(sel, recipe)
    ensures matched == Matches(sel, recipe)
  {
    if sel.items.Keys != recipe.items.Keys {
      return false;
    }
    var i := 0;
    while i < |sel.keys|
      invariant 0 <= i <= |sel.keys|
      invariant forall j :: 0 <= j < i ==> WithinFifth(sel.items[sel.keys[j]], recipe.items[sel.keys[j]])
    {
      var k := sel.keys[i];
      if !WithinFifth(sel.items[k], recipe.items[k]) {
        return false;
      }
      i := i + 1;
    }
    forall k | k in sel.items ensures WithinFifth(sel.items[k], recipe.items[k]) {
      var j :| 0 <= j < |sel.keys| && sel.keys[j] == k;
    }
    return true;
  }

  /** The recipe filed under `name` matches the selection. */
  ghost predicate MatchesRecipe(sel: Amounts, recipes: Dict<string, Recipe>, name: string)
    requires name in recipes.items
  {
    Matches(sel, recipes.items[name].ingredients)
  }

  /** None of the first `i` recipes in catalog order matches the selection. */
  ghost predicate NoMatchBefore(sel: Amounts, recipes: Dict<string, Recipe>, i: int)
    requires recipes.Valid() && i <= |recipes.keys|
  {
    forall j :: 0 <= j < i ==> !MatchesRecipe(sel, recipes, recipes.keys[j])
  }

  /** `_find_matching_recipe`: the first matching recipe in catalog order, or "" when none matches. */
  method FindMatchingRecipe(sel: Amounts, recipes: Dict<string, Recipe>) returns (name: string)
    requires sel.Valid() && RecipeTable(recipes)
    ensures forall i | 0 <= i < |recipes.keys| && MatchesRecipe(sel, recipes, recipes.keys[i]) && NoMatchBefore(sel, recipes, i) ::
      name == recipes.keys[i]
    ensures NoMatchBefore(sel, recipes, |recipes.keys|) ==> name == ""
  {
    var i := 0;
    while i < |recipes.keys|
      invariant 0 <= i <= |recipes.keys|
      invariant NoMatchBefore(sel, recipes, i)
    {
      var candidate := recipes.keys[i];
      var matched := RecipesMatch(sel, recipes.items[candidate].ingredients);
      if matched {
        return candidate;
      }
      i := i + 1;
    }
    return "";
  }

  /** The buttons `add-ingredient`, `clear-recipe`, `start-mixing` and `toggle-panels`. */
  datatype Button = AddButton | ClearButton | StartButton | TogglePanelsButton

  class FreeMixingScreen {
    const system: Cocktail.CocktailSystem
    var selected: Amounts
    /** The `display` flag of the two side panels, which always agree. */
    var sidePanelsShown: bool

    ghost predicate Valid()
      reads this, system
    {
      && system.Valid()
      && selected.Valid()
      && AllPositive(selected)
      && (forall k :: k in selected.items ==> k in system.ingredients.items)
    }

    constructor (system: Cocktail.CocktailSystem)
      requires system.Valid()
      ensures Valid()
      ensures this.system == system && selected == Empty() && sidePanelsShown
    {
      this.system := system;
      selected := Empty();
      sidePanelsShown := true;
    }

    /** The ingredient list of the side panel, grouped by type. */
    method IngredientList() returns (groups: Dict<string, seq<Ingredient>>)
      requires Valid()
      ensures groups.Valid()
      ensures groups.keys == FirstOccurrences(KeysOf(system.AvailableIngredients(), TypeLabel))
      ensures forall tag :: groups.Get(tag, []) == Filter(system.AvailableIngredients(), TypeLabel, tag)
    {
      groups := IngredientsByType(system.AvailableIngredients());
    }

    /**
     * `_add_ingredient`: `choice` is the drop-down's value ("" when nothing
     * is chosen) and `amount` the parsed amount field (`None` when it is
     * empty or not a number).  Only a positive amount is added.
     */
    method AddIngredient(choice: string, amount: Option<int>)
      requires Valid()
      requires choice != "" ==> choice in system.ingredients.items
      modifies this
      ensures Valid()
      ensures selected == if choice != "" && amount.Some? && amount.value > 0
        then Accumulate(old(selected), choice, amount.value) else old(selected)
      ensures sidePanelsShown == old(sidePanelsShown)
    {
      if choice != "" && amount.Some? && amount.value > 0 {
        AccumulateKeepsPositive(selected, choice, amount.value);
        selected := Accumulate(selected, choice, amount.value);
      }
    }

    /** `_find_matching_recipe` on the current selection. */
    method MatchingRecipe() returns (name: string)
      requires Valid()
      ensures forall i | 0 <= i < |system.recipes.keys| && MatchesRecipe(selected, system.recipes, system.recipes.keys[i]) &&
        NoMatchBefore(selected, system.recipes, i) :: name == system.recipes.keys[i]
      ensures NoMatchBefore(selected, system.recipes, |system.recipes.keys|) ==> name == ""
    {
      name := FindMatchingRecipe(selected, system.recipes);
    }

    /** `on_button_pressed` */
    method Press(button: Button, choice: string, amount: Option<int>) returns (posted: Option<Amounts>)
      requires Valid()
      requires choice != "" ==> choice in system.ingredients.items
      modifies this
      ensures Valid()
      ensures button == AddButton ==> selected == if choice != "" && amount.Some? && amount.value > 0
        then Accumulate(old(selected), choice, amount.value) else old(selected)
      ensures button == ClearButton ==> selected == Empty()
      ensures button == StartButton || button == TogglePanelsButton ==> selected == old(selected)
      ensures sidePanelsShown == if button == TogglePanelsButton then !old(sidePanelsShown) else old(sidePanelsShown)
      ensures posted.Some? <==> button == StartButton && selected.keys != []
      ensures posted.Some? ==> posted.value == selected
    {
      posted := None;
      match button
      case AddButton => AddIngredient(choice, amount);
      case ClearButton => selected := Empty();
      case StartButton =>
        if selected.keys != [] {
          posted := Some(selected);
        }
      case TogglePanelsButton => sidePanelsShown := !sidePanelsShown;
    }
  }
}
