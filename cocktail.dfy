/**
 * `CocktailSystem`: the catalog, the player's inventory, the unlocked
 * recipes, and the scoring of a mixed drink against a recipe.
 */
module Cocktail {
  import opened Dicts
  import opened Domain
  import DefaultCatalog

  function Abs(x: int): (r: nat)
    ensures r == x || r == -x
  {
    if x < 0 then -x else x
  }

  /** `abs(player_amount - correct_amount) / correct_amount`, the relative deviation. */
  function Deviation(given: int, target: int): (d: real)
    requires target > 0
    ensures d >= 0.0
  {
    Abs(given - target) as real / target as real
  }

  /**
   * What one recipe ingredient costs: 20 when it is missing (amount 0),
   * 15 when it deviates by more than half, 8 when by more than a fifth.
   * The comparisons are made without division.
   */
  function IngredientPenalty(target: int, given: int): (p: nat)
    requires target > 0
    ensures p <= 20
    ensures p == 20 <==> given == 0
  {
    if given == 0 then 20
    else if 2 * Abs(given - target) > target then 15
    else if 5 * Abs(given - target) > target then 8
    else 0
  }

  /** The division-free penalty agrees with the deviation thresholds 0.5 and 0.2. */
  lemma PenaltyFollowsDeviation(target: int, given: int)
    requires target > 0
    ensures IngredientPenalty(target, given) ==
      if given == 0 then 20
      else if Deviation(given, target) > 0.5 then 15
      else if Deviation(given, target) > 0.2 then 8
      else 0
  {
    var a, t := Abs(given - target) as real, target as real;
    ScaledComparison(a, t, 0.5);
    ScaledComparison(a, t, 0.2);
  }

  /** `a / t > c` is `a > c * t` for a positive `t`. */
  lemma ScaledComparison(a: real, t: real, c: real)
    requires t > 0.0
    ensures a / t > c <==> a > c * t
  {
    var d := a / t;
    assert d * t == a;
    if d > c {
      assert (d - c) * t > 0.0;
    } else {
      assert (c - d) * t >= 0.0;
    }
  }

  /** Every name in `names` is a recipe ingredient with a positive target. */
  ghost predicate Targets(recipe: Dict<string, int>, names: seq<string>) {
    forall i :: 0 <= i < |names| ==> names[i] in recipe.items && recipe.items[names[i]] > 0
  }

  /** The penalties of the ingredients `names`, looked up in the submission with default 0. */
  function PenaltySum(recipe: Dict<string, int>, submission: Submission, names: seq<string>): (p: nat)
    requires Targets(recipe, names)
    ensures p <= 20 * |names|
  {
    if names == [] then 0
    else
      var k := names[|names| - 1];
      PenaltySum(recipe, submission, names[..|names| - 1]) + IngredientPenalty(recipe.items[k], submission.Get(k, 0))
  }

  /** The deductions of the first loop of `calculate_score`, over the recipe's ingredients. */
  function RecipePenalty(recipe: TargetAmounts, submission: Submission): (p: nat)
    ensures p <= 20 * |recipe.keys|
  {
    PenaltySum(recipe, submission, recipe.keys)
  }

  /** The submitted ingredients the recipe does not call for, counted only when their amount is positive. */
  function Extras(recipe: TargetAmounts, submission: Submission): (e: set<string>)
    ensures forall k :: k in e <==> k in submission.items && k !in recipe.items && submission.items[k] > 0
  {
    set k | k in submission.items && k !in recipe.items && submission.items[k] > 0
  }

  /** The score before it is clamped at zero. */
  function RawScore(recipe: TargetAmounts, submission: Submission): (s: int)
    ensures s <= 100
  {
    100 - RecipePenalty(recipe, submission) - 10 * |Extras(recipe, submission)|
  }

  /** The score of a submission against a recipe: `max(0, score)`. */
  function Score(recipe: TargetAmounts, submission: Submission): (s: nat)
    ensures s <= 100
    ensures s == 0 || s == RawScore(recipe, submission)
    ensures s >= RawScore(recipe, submission)
  {
    if RawScore(recipe, submission) < 0 then 0 else RawScore(recipe, submission)
  }

  /** The five verdicts a score can earn. */
  datatype Grade = Perfect | Great | Good | Fair | NeedsWork {
    function Text(): (t: string)
      ensures |t| > 0
    {
      match this
      case Perfect => "完美！🌟"
      case Great => "很棒！👏"
      case Good => "不错！👍"
      case Fair => "还可以 😊"
      case NeedsWork => "需要改进 😅"
    }

    /** The lowest score that earns this grade. */
    function Threshold(): (n: nat)
      ensures n <= 90
    {
      match this
      case Perfect => 90
      case Great => 80
      case Good => 70
      case Fair => 60
      case NeedsWork => 0
    }
  }

  /** The grade of a score: the first threshold it reaches, from 90 down. */
  function GradeOf(score: int): (g: Grade)
    ensures score >= 0 ==> score >= g.Threshold()
  {
    if score >= 90 then Perfect
    else if score >= 80 then Great
    else if score >= 70 then Good
    else if score >= 60 then Fair
    else NeedsWork
  }

  /** A grade is earned exactly on the scores between its threshold and the next one up. */
  lemma GradeBands(score: nat, g: Grade)
    ensures GradeOf(score) == g <==>
      score >= g.Threshold() && forall h: Grade :: h.Threshold() > g.Threshold() ==> score < h.Threshold()
  {
    if GradeOf(score) == g {
      forall h: Grade | h.Threshold() > g.Threshold() ensures score < h.Threshold() {
        assert h.Threshold() in {60, 70, 80, 90};
      }
    } else if score >= g.Threshold() {
      var h := GradeOf(score);
      assert h.Threshold() > g.Threshold();
    }
  }

  /** A higher score never earns a lower grade. */
  lemma GradeMonotone(s1: int, s2: int)
    requires s1 <= s2
    ensures GradeOf(s1).Threshold() <= GradeOf(s2).Threshold()
  {
  }

  /** What `calculate_score` returns for a recipe name and a submission. */
  function Evaluate(recipes: Dict<string, Recipe>, name: string, submission: Submission): (r: (int, string))
    requires RecipeTable(recipes)
    ensures name !in recipes.items ==> r == (0, "未知配方")
    ensures name in recipes.items ==> 0 <= r.0 <= 100 && r.1 == GradeOf(r.0).Text()
  {
    if name !in recipes.items then (0, "未知配方")
    else
      var s := Score(recipes.items[name].ingredients, submission);
      (s, GradeOf(s).Text())
  }

  /** Submitting a recipe's own amounts scores full marks. */
  lemma {:induction false} OwnAmountsPerfect(recipe: TargetAmounts)
    ensures Score(recipe, recipe) == 100
    ensures GradeOf(Score(recipe, recipe)) == Perfect
  {
    ExactPenaltyZero(recipe, recipe.keys);
    assert Extras(recipe, recipe) == {};
  }

  lemma {:induction false} ExactPenaltyZero(recipe: TargetAmounts, names: seq<string>)
    requires Targets(recipe, names)
    ensures PenaltySum(recipe, recipe, names) == 0
  {
    if names != [] {
      ExactPenaltyZero(recipe, names[..|names| - 1]);
    }
  }

  /** With nothing submitted every recipe ingredient costs 20. */
  lemma {:induction false} EmptySubmission(recipe: TargetAmounts)
    ensures Score(recipe, Empty()) == if 20 * |recipe.keys| >= 100 then 0 else 100 - 20 * |recipe.keys|
  {
    MissingPenalty(recipe, recipe.keys);
    assert Extras(recipe, Empty()) == {};
  }

  lemma {:induction false} MissingPenalty(recipe: TargetAmounts, names: seq<string>)
    requires Targets(recipe, names)
    ensures PenaltySum(recipe, Empty(), names) == 20 * |names|
  {
    if names != [] {
      MissingPenalty(recipe, names[..|names| - 1]);
    }
  }

  /**
   * Adding an ingredient the recipe does not call for leaves every other
   * deduction alone and costs 10 exactly when its amount is positive.
   */
  lemma ExtraIngredientCost(recipe: TargetAmounts, submission: Submission, k: string, amount: int)
    requires submission.Valid()
    requires k !in recipe.items && k !in submission.items
    ensures RawScore(recipe, submission.Put(k, amount)) ==
      RawScore(recipe, submission) - (if amount > 0 then 10 else 0)
  {
    var more := submission.Put(k, amount);
    forall i | 0 <= i < |recipe.keys| ensures submission.Get(recipe.keys[i], 0) == more.Get(recipe.keys[i], 0) {
      assert recipe.keys[i] in recipe.items;
    }
    UnrelatedPenalty(recipe, submission, more, recipe.keys);
    ExtrasGrow(recipe, submission, k, amount);
  }

  /** The extras after adding `k`: one more exactly when its amount is positive. */
  lemma ExtrasGrow(recipe: TargetAmounts, submission: Submission, k: string, amount: int)
    requires k !in recipe.items && k !in submission.items
    ensures |Extras(recipe, submission.Put(k, amount))| == |Extras(recipe, submission)| + (if amount > 0 then 1 else 0)
  {
    var more := submission.Put(k, amount);
    if amount > 0 {
      assert Extras(recipe, more) == Extras(recipe, submission) + {k};
    } else {
      assert Extras(recipe, more) == Extras(recipe, submission);
    }
  }

  /** Two submissions that agree on the recipe's ingredients have the same penalty. */
  lemma {:induction false} UnrelatedPenalty(recipe: TargetAmounts, s1: Submission, s2: Submission, names: seq<string>)
    requires Targets(recipe, names)
    requires forall i :: 0 <= i < |names| ==> s1.Get(names[i], 0) == s2.Get(names[i], 0)
    ensures PenaltySum(recipe, s1, names) == PenaltySum(recipe, s2, names)
  {
    if names != [] {
      UnrelatedPenalty(recipe, s1, s2, names[..|names| - 1]);
    }
  }

  /**
   * The test at the end of cocktail_system.py: scoring "莫吉托" with the
   * mojito's own amounts gives 100 and "完美！🌟".
   */
  lemma MojitoTest()
    ensures Score(DefaultCatalog.Mojito.ingredients, DefaultCatalog.Mojito.ingredients) == 100
    ensures Evaluate(DefaultCatalog.Recipes(), "莫吉托", DefaultCatalog.Mojito.ingredients) == (100, "完美！🌟")
  {
    MojitoFiled();
    OwnAmountsPerfect(DefaultCatalog.Mojito.ingredients);
  }

  /** The catalog files the mojito under "莫吉托": no later recipe reuses the name. */
  lemma MojitoFiled()
    ensures "莫吉托" in DefaultCatalog.Recipes().items
    ensures DefaultCatalog.Recipes().items["莫吉托"] == DefaultCatalog.Mojito
  {
    var list := DefaultCatalog.RecipeList;
    assert list[0] == DefaultCatalog.Mojito;
    forall j | 0 < j < |list| ensures list[j].name != list[0].name {
    }
    RecipeTableOfLookup(list, 0);
  }

  /** `[table[name] for name in names if name in table]` */
  function Lookup(table: Dict<string, Recipe>, names: seq<string>): (rs: seq<Recipe>)
    ensures |rs| <= |names|
    ensures (forall i :: 0 <= i < |names| ==> names[i] in table.items) ==>
      |rs| == |names| && forall i :: 0 <= i < |rs| ==> rs[i] == table.items[names[i]]
  {
    if names == [] then []
    else
      var last := names[|names| - 1];
      Lookup(table, names[..|names| - 1]) + (if last in table.items then [table.items[last]] else [])
  }

  /** The list holds exactly the table entries of the names that are in the table. */
  lemma {:induction false} LookupContents(table: Dict<string, Recipe>, names: seq<string>, r: Recipe)
    ensures r in Lookup(table, names) <==> exists n :: n in names && n in table.items && table.items[n] == r
  {
    if names != [] {
      var init := names[..|names| - 1];
      LookupContents(table, init, r);
      assert names == init + [names[|names| - 1]];
      if exists n :: n in init && n in table.items && table.items[n] == r {
        var n :| n in init && n in table.items && table.items[n] == r;
        assert n in names;
      }
    }
  }

  /** The list for two runs of names is the two lists one after the other, so the names' order is kept. */
  lemma {:induction false} LookupAppend(table: Dict<string, Recipe>, a: seq<string>, b: seq<string>)
    ensures Lookup(table, a + b) == Lookup(table, a) + Lookup(table, b)
  {
    if b == [] {
      assert a + b == a;
    } else {
      var init, last := b[..|b| - 1], b[|b| - 1];
      var tail := if last in table.items then [table.items[last]] else [];
      LookupAppend(table, a, init);
      assert (a + b)[..|a + b| - 1] == a + init;
      assert (a + b)[|a + b| - 1] == last;
      calc {
        Lookup(table, a + b);
        Lookup(table, a + init) + tail;
        Lookup(table, a) + Lookup(table, init) + tail;
        Lookup(table, a) + (Lookup(table, init) + tail);
        Lookup(table, a) + Lookup(table, b);
      }
    }
  }

  /** `unlocked_recipes` after `unlock_recipe(name)`, and whether it changed. */
  function Unlocked(recipes: Dict<string, Recipe>, unlocked: seq<string>, name: string): (r: (seq<string>, bool))
    ensures r.1 <==> name in recipes.items && name !in unlocked
    ensures r.1 ==> r.0 == unlocked + [name]
    ensures !r.1 ==> r.0 == unlocked
  {
    if name in recipes.items && name !in unlocked then (unlocked + [name], true) else (unlocked, false)
  }

  ghost predicate Distinct(xs: seq<string>) {
    forall i, j :: 0 <= i < j < |xs| ==> xs[i] != xs[j]
  }

  /** Unlocking keeps the list free of repeats and only ever adds recipe names. */
  lemma UnlockKeepsDistinct(recipes: Dict<string, Recipe>, unlocked: seq<string>, name: string)
    requires Distinct(unlocked)
    ensures Distinct(Unlocked(recipes, unlocked, name).0)
    ensures forall n :: n in Unlocked(recipes, unlocked, name).0 <==> n in unlocked || (n == name && n in recipes.items)
  {
  }

  /** Unlocking the same name twice is the same as unlocking it once; the second call reports false. */
  lemma UnlockIdempotent(recipes: Dict<string, Recipe>, unlocked: seq<string>, name: string)
    ensures var once := Unlocked(recipes, unlocked, name).0;
      Unlocked(recipes, once, name) == (once, false)
  {
  }

  /** The first loop of `calculate_score`: 20, 15 or 8 off per recipe ingredient. */
  method RecipeDeductions(recipe: TargetAmounts, submission: Submission) returns (penalty: int)
    ensures penalty == RecipePenalty(recipe, submission)
  {
    penalty := 0;
    var i := 0;
    while i < |recipe.keys|
      invariant 0 <= i <= |recipe.keys|
      invariant penalty == PenaltySum(recipe, submission, recipe.keys[..i])
    {
      var k := recipe.keys[i];
      var given := submission.Get(k, 0);
      var target := recipe.items[k];
      assert recipe.keys[..i + 1][..i] == recipe.keys[..i];
      if given == 0 {
        penalty := penalty + 20;
      } else if 2 * Abs(given - target) > target {
        penalty := penalty + 15;
      } else if 5 * Abs(given - target) > target {
        penalty := penalty + 8;
      }
      i := i + 1;
    }
    assert recipe.keys[..i] == recipe.keys;
  }

  /** The extras among `names`. */
  ghost function ExtrasAmong(recipe: TargetAmounts, submission: Submission, names: seq<string>): set<string> {
    set k | k in names && k in submission.items && k !in recipe.items && submission.items[k] > 0
  }

  /** How many of `names` are extras, counted one by one as the loop does. */
  function ExtraCount(recipe: TargetAmounts, submission: Submission, names: seq<string>): nat {
    if names == [] then 0
    else
      var k := names[|names| - 1];
      ExtraCount(recipe, submission, names[..|names| - 1]) +
        if k in submission.items && k !in recipe.items && submission.items[k] > 0 then 1 else 0
  }

  /** Over distinct names, the count is the number of extras among them. */
  lemma {:induction false} ExtraCountIsSize(recipe: TargetAmounts, submission: Submission, names: seq<string>)
    requires forall i, j :: 0 <= i < j < |names| ==> names[i] != names[j]
    ensures ExtraCount(recipe, submission, names) == |ExtrasAmong(recipe, submission, names)|
  {
    if names != [] {
      var init, k := names[..|names| - 1], names[|names| - 1];
      ExtraCountIsSize(recipe, submission, init);
      assert names == init + [k];
      assert k !in init;
      var e := if k in submission.items && k !in recipe.items && submission.items[k] > 0 then {k} else {};
      assert ExtrasAmong(recipe, submission, names) == ExtrasAmong(recipe, submission, init) + e;
    }
  }

  /** The second loop of `calculate_score`: how many submitted ingredients are extra. */
  method CountExtras(recipe: TargetAmounts, submission: Submission) returns (count: int)
    requires submission.Valid()
    ensures count == |Extras(recipe, submission)|
  {
    count := 0;
    var j := 0;
    while j < |submission.keys|
      invariant 0 <= j <= |submission.keys|
      invariant count == ExtraCount(recipe, submission, submission.keys[..j])
    {
      var k := submission.keys[j];
      assert submission.keys[..j + 1][..j] == submission.keys[..j];
      if k !in recipe.items && submission.items[k] > 0 {
        count := count + 1;
      }
      j := j + 1;
    }
    assert submission.keys[..j] == submission.keys;
    ExtraCountIsSize(recipe, submission, submission.keys);
    assert ExtrasAmong(recipe, submission, submission.keys) == Extras(recipe, submission);
  }

  lemma InitialUnlockedDistinct()
    ensures Distinct(DefaultCatalog.InitialUnlocked)
  {
  }

  /** The five recipes unlocked at the start are catalog recipes, each filed under its own name. */
  lemma InitialUnlockedKnown()
    ensures forall i :: 0 <= i < |DefaultCatalog.InitialUnlocked| ==> DefaultCatalog.InitialUnlocked[i] in DefaultCatalog.Recipes().items
  {
    MojitoFiled();
    MargaritaFiled();
    GinTonicFiled();
    ScrewdriverFiled();
    BlackRussianFiled();
    FiveFiled(DefaultCatalog.Recipes(), DefaultCatalog.InitialUnlocked,
      DefaultCatalog.Mojito.name, DefaultCatalog.Margarita.name, DefaultCatalog.GinTonic.name,
      DefaultCatalog.Screwdriver.name, DefaultCatalog.BlackRussian.name);
  }

  /** Five names, each filed in the table, are all in it. */
  lemma FiveFiled(t: Dict<string, Recipe>, names: seq<string>, a: string, b: string, c: string, d: string, e: string)
    requires names == [a, b, c, d, e]
    requires a in t.items && b in t.items && c in t.items && d in t.items && e in t.items
    ensures forall i :: 0 <= i < |names| ==> names[i] in t.items
  {
  }

  /** The catalog files the margarita under its name: no later recipe reuses it. */
  lemma MargaritaFiled()
    ensures DefaultCatalog.Margarita.name in DefaultCatalog.Recipes().items
    ensures DefaultCatalog.Recipes().items[DefaultCatalog.Margarita.name] == DefaultCatalog.Margarita
  {
    var list := DefaultCatalog.RecipeList;
    assert list[1] == DefaultCatalog.Margarita;
    forall j | 1 < j < |list| ensures list[j].name != list[1].name {
    }
    RecipeTableOfLookup(list, 1);
  }

  /** The catalog files the gin and tonic under its name: no later recipe reuses it. */
  lemma GinTonicFiled()
    ensures DefaultCatalog.GinTonic.name in DefaultCatalog.Recipes().items
    ensures DefaultCatalog.Recipes().items[DefaultCatalog.GinTonic.name] == DefaultCatalog.GinTonic
  {
    var list := DefaultCatalog.RecipeList;
    assert list[3] == DefaultCatalog.GinTonic;
    forall j | 3 < j < |list| ensures list[j].name != list[3].name {
    }
    RecipeTableOfLookup(list, 3);
  }

  /** The catalog files the screwdriver under its name: no later recipe reuses it. */
  lemma ScrewdriverFiled()
    ensures DefaultCatalog.Screwdriver.name in DefaultCatalog.Recipes().items
    ensures DefaultCatalog.Recipes().items[DefaultCatalog.Screwdriver.name] == DefaultCatalog.Screwdriver
  {
    var list := DefaultCatalog.RecipeList;
    assert list[10] == DefaultCatalog.Screwdriver;
    forall j | 10 < j < |list| ensures list[j].name != list[10].name {
    }
    RecipeTableOfLookup(list, 10);
  }

  /** The catalog files the black russian under its name: no later recipe reuses it. */
  lemma BlackRussianFiled()
    ensures DefaultCatalog.BlackRussian.name in DefaultCatalog.Recipes().items
    ensures DefaultCatalog.Recipes().items[DefaultCatalog.BlackRussian.name] == DefaultCatalog.BlackRussian
  {
    var list := DefaultCatalog.RecipeList;
    assert list[12] == DefaultCatalog.BlackRussian;
    forall j | 12 < j < |list| ensures list[j].name != list[12].name {
    }
    RecipeTableOfLookup(list, 12);
  }

  /** The built-in catalog, owning every ingredient, is a valid starting state. */
  lemma DefaultSystemValid(ingredients: Dict<string, Ingredient>, recipes: Dict<string, Recipe>, inventory: seq<string>, unlocked: seq<string>)
    requires ingredients == DefaultCatalog.Ingredients() && recipes == DefaultCatalog.Recipes()
    requires inventory == ingredients.keys && unlocked == DefaultCatalog.InitialUnlocked
    ensures WellFormedCatalog(ingredients, recipes)
    ensures forall i :: 0 <= i < |inventory| ==> inventory[i] in ingredients.items
    ensures Distinct(unlocked)
    ensures forall i :: 0 <= i < |unlocked| ==> unlocked[i] in recipes.items
  {
    InitialUnlockedDistinct();
    InitialUnlockedKnown();
    OwnedKeysKnown(ingredients, inventory);
  }

  /** The keys of a valid table are all in it. */
  lemma OwnedKeysKnown(t: Dict<string, Ingredient>, inventory: seq<string>)
    requires t.Valid() && inventory == t.keys
    ensures forall i :: 0 <= i < |inventory| ==> inventory[i] in t.items
  {
  }

  class CocktailSystem {
    const ingredients: Dict<string, Ingredient>
    const recipes: Dict<string, Recipe>
    /** `player_inventory`: the names of the ingredients the player owns. */
    const inventory: seq<string>
    var unlocked: seq<string>

    ghost predicate Valid()
      reads this
    {
      && WellFormedCatalog(ingredients, recipes)
      && (forall i :: 0 <= i < |inventory| ==> inventory[i] in ingredients.items)
      && Distinct(unlocked)
      && (forall i :: 0 <= i < |unlocked| ==> unlocked[i] in recipes.items)
    }

    /** The built-in catalog, every ingredient owned, five recipes unlocked. */
    constructor ()
      ensures Valid()
      ensures ingredients == DefaultCatalog.Ingredients() && recipes == DefaultCatalog.Recipes()
      ensures inventory == ingredients.keys
      ensures unlocked == DefaultCatalog.InitialUnlocked
    {
      ingredients := DefaultCatalog.Ingredients();
      recipes := DefaultCatalog.Recipes();
      inventory := DefaultCatalog.Ingredients().keys;
      unlocked := DefaultCatalog.InitialUnlocked;
      new;
      DefaultSystemValid(ingredients, recipes, inventory, unlocked);
    }

    /** `get_available_ingredients`: the owned ingredients, in inventory order. */
    function AvailableIngredients(): (xs: seq<Ingredient>)
      reads this
      requires Valid()
      ensures |xs| == |inventory|
      ensures forall i :: 0 <= i < |xs| ==> xs[i].name == inventory[i]
      ensures forall i :: 0 <= i < |xs| ==> xs[i] == ingredients.items[inventory[i]]
    {
      seq(|inventory|, i requires 0 <= i < |inventory| reads this => ingredients.items[inventory[i]])
    }

    /** `get_unlocked_recipes`: the unlocked names that are recipes, in unlock order. */
    function UnlockedRecipes(): (rs: seq<Recipe>)
      reads this
      requires Valid()
      ensures |rs| == |unlocked|
      ensures forall i :: 0 <= i < |rs| ==> rs[i] == recipes.items[unlocked[i]]
    {
      Lookup(recipes, unlocked)
    }

    /** `calculate_score`: the recipe loop, the extras loop, the clamp and the grade. */
    method CalculateScore(name: string, submission: Submission) returns (score: int, evaluation: string)
      requires Valid() && submission.Valid()
      ensures (score, evaluation) == Evaluate(recipes, name, submission)
    {
      if name !in recipes.items {
        return 0, "未知配方";
      }
      var recipe: TargetAmounts := recipes.items[name].ingredients;
      var penalty := RecipeDeductions(recipe, submission);
      var extras := CountExtras(recipe, submission);
      score := 100 - penalty - 10 * extras;
      if score < 0 {
        score := 0;
      }
      evaluation := GradeOf(score).Text();
    }

    /** `unlock_recipe`: a known recipe that is still locked is appended. */
    method UnlockRecipe(name: string) returns (changed: bool)
      requires Valid()
      modifies this
      ensures Valid()
      ensures (unlocked, changed) == Unlocked(recipes, old(unlocked), name)
    {
      changed := name in recipes.items && name !in unlocked;
      if changed {
        unlocked := unlocked + [name];
      }
    }
  }
}
