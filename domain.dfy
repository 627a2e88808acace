/**
 * The entities of the cocktail game: ingredient types, ingredients and
 * recipes.  Cosmetic fields (colour, emoji, flavour profile, descriptions)
 * are not carried; amounts are whole millilitres.
 */
module Domain {
  import opened Dicts

  /** The five members of the `IngredientType` enumeration. */
  datatype IngredientType = BaseSpirit | Liqueur | Mixer | Garnish | Ice

  /** The enumeration member's value, the Chinese label shown to the player. */
  function TypeValue(t: IngredientType): (v: string)
    ensures |v| > 0
  {
    match t
    case BaseSpirit => "基酒"
    case Liqueur => "利口酒"
    case Mixer => "调和剂"
    case Garnish => "装饰"
    case Ice => "冰块"
  }

  /** The enumeration member's name, the spelling configuration files use. */
  function TypeName(t: IngredientType): (n: string)
    ensures |n| > 0
  {
    match t
    case BaseSpirit => "BASE_SPIRIT"
    case Liqueur => "LIQUEUR"
    case Mixer => "MIXER"
    case Garnish => "GARNISH"
    case Ice => "ICE"
  }

  /** The members in declaration order, the order `for t in IngredientType` visits them. */
  const AllTypes: seq<IngredientType> := [BaseSpirit, Liqueur, Mixer, Garnish, Ice]

  lemma TypeValuesDistinct(s: IngredientType, t: IngredientType)
    ensures TypeValue(s) == TypeValue(t) <==> s == t
  {
  }

  lemma TypeNamesDistinct(s: IngredientType, t: IngredientType)
    ensures TypeName(s) == TypeName(t) <==> s == t
  {
  }

  datatype Ingredient = Ingredient(name: string, kind: IngredientType, alcoholContent: int)

  /** A recipe: ingredient name -> target millilitres, in the recipe's order. */
  datatype Recipe = Recipe(name: string, ingredients: Dict<string, int>, difficulty: int, flavorTags: seq<string>)

  /** A submission: ingredient name -> millilitres, in the order the player added them. */
  type Submission = Dict<string, int>

  /** The engine divides by every target amount, so targets are positive. */
  ghost predicate PositiveAmounts(amounts: Dict<string, int>) {
    && amounts.Valid()
    && (forall k :: k in amounts.items ==> amounts.items[k] > 0)
  }

  /** Ingredient amounts with positive targets, the shape every catalog recipe has. */
  type TargetAmounts = d: Dict<string, int> | PositiveAmounts(d) witness Dict([], map[])

  ghost predicate WellFormedRecipe(r: Recipe) {
    PositiveAmounts(r.ingredients)
  }

  type WellFormed = r: Recipe | WellFormedRecipe(r) witness Recipe("", Dict([], map[]), 1, [])

  /** Every ingredient is filed under its own name, with a percentage for alcohol content. */
  ghost predicate IngredientTable(t: Dict<string, Ingredient>) {
    && t.Valid()
    && (forall k :: k in t.items ==> t.items[k].name == k && 0 <= t.items[k].alcoholContent <= 100)
  }

  /** Every recipe is filed under its own name and is well formed. */
  ghost predicate RecipeTable(t: Dict<string, Recipe>) {
    && t.Valid()
    && (forall k :: k in t.items ==> t.items[k].name == k && WellFormedRecipe(t.items[k]))
  }

  /**
   * A catalog as the game builds it: every entry is filed under its own name,
   * recipes have positive targets, and alcohol content is a percentage.
   */
  ghost predicate WellFormedCatalog(ingredients: Dict<string, Ingredient>, recipes: Dict<string, Recipe>) {
    IngredientTable(ingredients) && RecipeTable(recipes)
  }

  /** An ingredient whose alcohol content is a percentage. */
  type Listed = i: Ingredient | 0 <= i.alcoholContent <= 100 witness Ingredient("", Ice, 0)

  /** A table built from entries keyed by their own names, as a dict display writes it. */
  function IngredientTableOf(xs: seq<Listed>): (t: Dict<string, Ingredient>)
    ensures IngredientTable(t)
  {
    if xs == [] then Empty() else IngredientTableOf(xs[..|xs| - 1]).Put(xs[|xs| - 1].name, xs[|xs| - 1])
  }

  function RecipeTableOf(xs: seq<WellFormed>): (t: Dict<string, Recipe>)
    ensures RecipeTable(t)
  {
    if xs == [] then Empty() else RecipeTableOf(xs[..|xs| - 1]).Put(xs[|xs| - 1].name, xs[|xs| - 1])
  }

  /** The last entry of a name is the one the table keeps. */
  lemma {:induction false} RecipeTableOfLookup(xs: seq<WellFormed>, i: nat)
    requires i < |xs|
    requires forall j :: i < j < |xs| ==> xs[j].name != xs[i].name
    ensures xs[i].name in RecipeTableOf(xs).items
    ensures RecipeTableOf(xs).items[xs[i].name] == xs[i]
  {
    if i < |xs| - 1 {
      RecipeTableOfLookup(xs[..|xs| - 1], i);
    }
  }

  /**
   * A recipe's amount display: `names` is the order it is written in and
   * `amounts` the association, so the display has no repeated name.
   */
  function AmountsOf(names: seq<string>, amounts: map<string, int>): (t: Dict<string, int>)
    requires forall i, j :: 0 <= i < j < |names| ==> names[i] != names[j]
    requires forall k :: k in amounts <==> k in names
    requires forall k :: k in amounts ==> amounts[k] > 0
    ensures PositiveAmounts(t)
    ensures t.keys == names && t.items == amounts
  {
    Dict(names, amounts)
  }

  /** Every ingredient a recipe names is in the ingredient table. */
  ghost predicate ReferencesResolve(ingredients: Dict<string, Ingredient>, recipes: Dict<string, Recipe>) {
    forall r, k :: r in recipes.items && k in recipes.items[r].ingredients.items ==> k in ingredients.items
  }
}
