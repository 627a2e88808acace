/**
 * The quick-reference panel and the quick recipe picker: unlocked recipes
 * sorted into series by their flavour tags, owned ingredients sorted by
 * type, a three-ingredient summary per recipe, and lookup by name.
 */
module QuickReference {
  import opened Wrappers
  import opened Dicts
  import opened Domain
  import opened Grouping
  import Cocktail

  /** The tags that place a recipe in some named series. */
  const SeriesTags: set<string> := {"经典", "热带", "果味", "咖啡", "创意", "复杂", "强烈"}

  /** The series a recipe with these flavour tags is listed under. */
  function CategoryOf(tags: seq<string>): (c: string)
    ensures c == "其他" <==> forall t :: t in tags ==> t !in SeriesTags
    ensures "经典" in tags ==> c == "经典系列"
  {
    if "经典" in tags then "经典系列"
    else if "热带" in tags then "热带系列"
    else if "果味" in tags then "果味系列"
    else if "咖啡" in tags then "咖啡系列"
    else if "创意" in tags || "复杂" in tags || "强烈" in tags then "创意系列"
    else "其他"
  }

  /** A rule: any of these tags places the recipe in this series. */
  datatype Rule = Rule(triggers: seq<string>, series: string)

  /** The classification as a table, highest precedence first. */
  const Rules: seq<Rule> := [
    Rule(["经典"], "经典系列"),
    Rule(["热带"], "热带系列"),
    Rule(["果味"], "果味系列"),
    Rule(["咖啡"], "咖啡系列"),
    Rule(["创意", "复杂", "强烈"], "创意系列")
  ]

  predicate Fires(rule: Rule, tags: seq<string>) {
    exists t :: t in rule.triggers && t in tags
  }

  /** The series of the first rule that fires, or "其他" when none does. */
  function FirstRule(rules: seq<Rule>, tags: seq<string>): string {
    if rules == [] then "其他"
    else if Fires(rules[0], tags) then rules[0].series
    else FirstRule(rules[1..], tags)
  }

  /** The rule at `i` decides exactly when it fires and no earlier rule does. */
  lemma {:induction false} FirstRuleWins(rules: seq<Rule>, tags: seq<string>, i: nat)
    requires i < |rules| && Fires(rules[i], tags)
    requires forall j :: 0 <= j < i ==> !Fires(rules[j], tags)
    ensures FirstRule(rules, tags) == rules[i].series
  {
    if i > 0 {
      assert !Fires(rules[0], tags);
      FirstRuleWins(rules[1..], tags, i - 1);
    }
  }

  /** When no rule fires the recipe is filed under "其他". */
  lemma {:induction false} NoRuleFires(rules: seq<Rule>, tags: seq<string>)
    requires forall j :: 0 <= j < |rules| ==> !Fires(rules[j], tags)
    ensures FirstRule(rules, tags) == "其他"
  {
    if rules != [] {
      assert !Fires(rules[0], tags);
      NoRuleFires(rules[1..], tags);
    }
  }

  /** The if/elif chain is the precedence table read top to bottom. */
  lemma CategoryIsFirstRule(tags: seq<string>)
    ensures CategoryOf(tags) == FirstRule(Rules, tags)
  {
    if "经典" in tags {
      FirstRuleWins(Rules, tags, 0);
    } else if "热带" in tags {
      FirstRuleWins(Rules, tags, 1);
    } else if "果味" in tags {
      FirstRuleWins(Rules, tags, 2);
    } else if "咖啡" in tags {
      FirstRuleWins(Rules, tags, 3);
    } else if "创意" in tags || "复杂" in tags || "强烈" in tags {
      FirstRuleWins(Rules, tags, 4);
    } else {
      NoRuleFires(Rules, tags);
    }
  }

  function RecipeCategory(r: Recipe): string {
    CategoryOf(r.flavorTags)
  }

  /**
   * The recipe page's series grouping: one group per series in order of
   * first appearance, each holding that series' recipes in list order.
   */
  method RecipesByCategory(recipes: seq<Recipe>) returns (groups: Dict<string, seq<Recipe>>)
    ensures groups.Valid()
    ensures groups.keys == FirstOccurrences(KeysOf(recipes, RecipeCategory))
    ensures forall c :: groups.Get(c, []) == Filter(recipes, RecipeCategory, c)
  {
    groups := GroupBy(recipes, RecipeCategory);
    GroupOrder(recipes, RecipeCategory);
    forall c ensures groups.Get(c, []) == Filter(recipes, RecipeCategory, c) {
      GroupsAreFilters(recipes, RecipeCategory, c);
    }
  }

  /**
   * The "材料" line of a recipe: its first three ingredients with their
   * amounts, and how many more there are when it has more than three.
   */
  function IngredientSummary(amounts: Dict<string, int>): (s: (seq<(string, int)>, Option<int>))
    requires amounts.Valid()
    ensures |s.0| == if |amounts.keys| < 3 then |amounts.keys| else 3
    ensures forall i :: 0 <= i < |s.0| ==> s.0[i] == (amounts.keys[i], amounts.items[amounts.keys[i]])
    ensures s.1.Some? <==> |amounts.keys| > 3
    ensures |s.0| + s.1.GetOr(0) == |amounts.keys|
  {
    var n := if |amounts.keys| < 3 then |amounts.keys| else 3;
    var shown := seq(n, i requires 0 <= i < n => (amounts.keys[i], amounts.items[amounts.keys[i]]));
    (shown, if |amounts.keys| > 3 then Some(|amounts.keys| - 3) else None)
  }

  /** A recipe's ingredient count, as the summary reports it. */
  lemma SummaryCountsIngredients(amounts: Dict<string, int>)
    requires amounts.Valid()
    ensures |IngredientSummary(amounts).0| + IngredientSummary(amounts).1.GetOr(0) == |amounts.items|
  {
    var ks := set i | 0 <= i < |amounts.keys| :: amounts.keys[i];
    assert amounts.items.Keys == ks;
    DistinctCount(amounts.keys);
  }

  /** A list of distinct keys has as many elements as its set. */
  lemma {:induction false} DistinctCount(ks: seq<string>)
    requires forall i, j :: 0 <= i < j < |ks| ==> ks[i] != ks[j]
    ensures |set i | 0 <= i < |ks| :: ks[i]| == |ks|
  {
    if ks != [] {
      var init := ks[..|ks| - 1];
      DistinctCount(init);
      var s := set i | 0 <= i < |init| :: init[i];
      assert (set i | 0 <= i < |ks| :: ks[i]) == s + {ks[|ks| - 1]};
      assert ks[|ks| - 1] !in s;
    }
  }

  /** No recipe in the first `i` entries carries this name. */
  ghost predicate NoneNamedBefore(rs: seq<Recipe>, name: string, i: int)
    requires i <= |rs|
  {
    forall j :: 0 <= j < i ==> rs[j].name != name
  }

  /** `r` is the first recipe of `rs` named `name`. */
  ghost predicate FirstNamed(rs: seq<Recipe>, name: string, r: Recipe) {
    exists i :: 0 <= i < |rs| && rs[i] == r && r.name == name && NoneNamedBefore(rs, name, i)
  }

  /** The lookup loop of the recipe picker: the first recipe with that name, or nothing. */
  method FindRecipe(rs: seq<Recipe>, name: string) returns (found: Option<Recipe>)
    ensures found.None? <==> NoneNamedBefore(rs, name, |rs|)
    ensures found.Some? ==> FirstNamed(rs, name, found.value)
  {
    var i := 0;
    while i < |rs|
      invariant 0 <= i <= |rs|
      invariant NoneNamedBefore(rs, name, i)
    {
      if rs[i].name == name {
        return Some(rs[i]);
      }
      i := i + 1;
    }
    return None;
  }

  /** The panel's two tabs. */
  datatype Tab = RecipesTab | IngredientsTab

  class QuickReferencePanel {
    const system: Cocktail.CocktailSystem
    var currentView: Tab

    constructor (system: Cocktail.CocktailSystem)
      ensures this.system == system && currentView == RecipesTab
    {
      this.system := system;
      currentView := RecipesTab;
    }

    /** A tab button switches the view to its tab. */
    method Press(tab: Tab)
      modifies this
      ensures currentView == tab
    {
      currentView := tab;
    }

    /** The recipe page: unlocked recipes grouped by series. */
    method RecipesReference() returns (groups: Dict<string, seq<Recipe>>)
      requires system.Valid()
      ensures groups.Valid()
      ensures groups.keys == FirstOccurrences(KeysOf(system.UnlockedRecipes(), RecipeCategory))
      ensures forall c :: groups.Get(c, []) == Filter(system.UnlockedRecipes(), RecipeCategory, c)
    {
      groups := RecipesByCategory(system.UnlockedRecipes());
    }

    /** The ingredient page: owned ingredients grouped by type label. */
    method IngredientsReference() returns (groups: Dict<string, seq<Ingredient>>)
      requires system.Valid()
      ensures groups.Valid()
      ensures groups.keys == FirstOccurrences(KeysOf(system.AvailableIngredients(), TypeLabel))
      ensures forall tag :: groups.Get(tag, []) == Filter(system.AvailableIngredients(), TypeLabel, tag)
    {
      groups := IngredientsByType(system.AvailableIngredients());
    }
  }

  class QuickRecipeSelector {
    const system: Cocktail.CocktailSystem
    /** The recipe whose details are on show. */
    var shown: Option<Recipe>

    constructor (system: Cocktail.CocktailSystem)
      ensures this.system == system && shown == None
    {
      this.system := system;
      shown := None;
    }

    /**
     * `on_select_changed`: a blank choice ("") does nothing; otherwise the
     * first unlocked recipe of that name goes on show, and when there is
     * none the previous details stay.
     */
    method SelectChanged(value: string)
      requires system.Valid()
      modifies this
      ensures value == "" || NoneNamedBefore(system.UnlockedRecipes(), value, |system.UnlockedRecipes()|) ==> shown == old(shown)
      ensures shown != old(shown) ==> shown.Some? && FirstNamed(system.UnlockedRecipes(), value, shown.value)
      ensures value != "" && !NoneNamedBefore(system.UnlockedRecipes(), value, |system.UnlockedRecipes()|) ==>
        shown.Some? && FirstNamed(system.UnlockedRecipes(), value, shown.value)
    {
      if value != "" {
        var found := FindRecipe(system.UnlockedRecipes(), value);
        if found.Some? {
          shown := found;
        }
      }
    }
  }
}
