/**
 * `ConfigLoader`: reading the ingredient and recipe lists out of parsed
 * configuration documents, the built-in defaults used when that fails, and
 * the structural check of a configuration document.
 *
 * A parsed JSON document is modelled as a map from top-level key to a list
 * of items, and an item as a map from field name to a value.  Opening and
 * parsing files is left to the caller: `None` stands for a file that could
 * not be read or parsed.
 */
module ConfigLoader {
  import opened Wrappers
  import opened Dicts
  import opened Domain

  /** The JSON values the loader reads out of an item. */
  datatype Value = Str(s: string) | Num(n: int) | Strs(ss: seq<string>) | Amounts(amounts: Dict<string, int>)

  type Item = map<string, Value>
  type Document = map<string, seq<Item>>

  // ---------------------------------------------------------------------
  // validate_config

  /** The two kinds of configuration file and what each item must carry. */
  datatype Section = IngredientsSection | RecipesSection {
    /** The document key holding the item list. */
    function Key(): string {
      match this
      case IngredientsSection => "ingredients"
      case RecipesSection => "recipes"
    }

    /** How an item is named in an error message. */
    function Label(): string {
      match this
      case IngredientsSection => "材料"
      case RecipesSection => "配方"
    }

    /** The required fields, in the order they are checked. */
    function Fields(): (fs: seq<string>)
      ensures DistinctFields(fs)
    {
      match this
      case IngredientsSection => ["name", "type", "color", "flavor_profile", "alcohol_content", "emoji", "description"]
      case RecipesSection => ["name", "ingredients", "description", "difficulty", "emoji", "flavor_tags"]
    }
  }

  /** The config type the validator checks as `s`. */
  function SectionNamed(configType: string): (s: Option<Section>)
    ensures s.Some? <==> configType == "ingredients" || configType == "recipes"
    ensures s.Some? ==> s.value.Key() == configType
  {
    if configType == "ingredients" then Some(IngredientsSection)
    else if configType == "recipes" then Some(RecipesSection)
    else None
  }

  function DigitChar(d: nat): char
    requires d < 10
  {
    "0123456789"[d]
  }

  /** `str(n)` for a natural number. */
  function NatToString(n: nat): string
    decreases n
  {
    if n < 10 then [DigitChar(n)] else NatToString(n / 10) + [DigitChar(n % 10)]
  }

  /** One validation error; `position` counts items from 1, as the messages do. */
  datatype ValidationError = MissingSection(section: Section) | MissingField(section: Section, position: nat, field: string) {
    /** The message the validator returns for this error. */
    function Message(): string {
      match this
      case MissingSection(s) => "缺少 '" + s.Key() + "' 字段"
      case MissingField(s, p, f) => s.Label() + " " + NatToString(p) + " 缺少必需字段: " + f
    }
  }

  /** The fields are pairwise distinct. */
  ghost predicate DistinctFields(fields: seq<string>) {
    forall i, j :: 0 <= i < j < |fields| ==> fields[i] != fields[j]
  }

  /** Where `f` sits in `fields`. */
  ghost function FieldIndex(fields: seq<string>, f: string): (i: nat)
    requires DistinctFields(fields) && f in fields
    ensures i < |fields| && fields[i] == f
  {
    var i :| 0 <= i < |fields| && fields[i] == f;
    i
  }

  /** The errors for the first `k` of `fields` on one item, the inner loop's output so far. */
  function FieldErrors(s: Section, item: Item, position: nat, fields: seq<string>, k: nat): (errs: seq<ValidationError>)
    requires k <= |fields|
    ensures forall e :: e in errs ==>
      e.MissingField? && e.section == s && e.position == position && e.field in fields && e.field !in item
  {
    if k == 0 then []
    else
      var f := fields[k - 1];
      FieldErrors(s, item, position, fields, k - 1) + if f !in item then [MissingField(s, position, f)] else []
  }

  /** `e` reports a required field that the item at its position (counted from 1) lacks. */
  ghost predicate Reported(s: Section, items: seq<Item>, e: ValidationError) {
    e.MissingField? && e.section == s && 1 <= e.position <= |items| && e.field in s.Fields() && e.field !in items[e.position - 1]
  }

  /** The errors for every item of the list, item by item, each in field order. */
  function ItemErrors(s: Section, items: seq<Item>): (errs: seq<ValidationError>)
    ensures forall e :: e in errs ==> Reported(s, items, e)
  {
    if items == [] then []
    else
      var n := |items|;
      var init := items[..n - 1];
      var errs := ItemErrors(s, init);
      var more := FieldErrors(s, items[n - 1], n, s.Fields(), |s.Fields()|);
      assert forall e :: e in errs ==> Reported(s, items, e) by {
        forall e | e in errs ensures Reported(s, items, e) {
          assert Reported(s, init, e);
          assert init[e.position - 1] == items[e.position - 1];
        }
      }
      errs + more
  }

  /** `validate_config(config_type, config_data)`, as the list of errors it reports. */
  function Errors(configType: string, data: Document): seq<ValidationError> {
    match SectionNamed(configType)
    case None => []
    case Some(s) => if s.Key() !in data then [MissingSection(s)] else ItemErrors(s, data[s.Key()])
  }

  /** A config type the validator does not know has no errors. */
  lemma UnknownTypeNoErrors(configType: string, data: Document)
    requires configType != "ingredients" && configType != "recipes"
    ensures Errors(configType, data) == []
  {
  }

  /** A missing list is one error, and no item is looked at. */
  lemma MissingSectionOneError(s: Section, data: Document)
    requires s.Key() !in data
    ensures Errors(s.Key(), data) == [MissingSection(s)]
  {
  }

  /** Each error names one of `fields` among the first `k`, in the order of `fields`. */
  ghost predicate FieldsInOrder(fields: seq<string>, errs: seq<ValidationError>, k: nat)
    requires DistinctFields(fields)
  {
    && (forall a :: 0 <= a < |errs| ==> errs[a].MissingField? && errs[a].field in fields && FieldIndex(fields, errs[a].field) < k)
    && (forall a, b :: 0 <= a < b < |errs| ==> FieldIndex(fields, errs[a].field) < FieldIndex(fields, errs[b].field))
  }

  /** Every field among the first `k` that the item lacks has its error. */
  lemma {:induction false} FieldErrorsComplete(s: Section, item: Item, position: nat, fields: seq<string>, k: nat, j: nat)
    requires j < k <= |fields| && fields[j] !in item
    ensures MissingField(s, position, fields[j]) in FieldErrors(s, item, position, fields, k)
  {
    if j < k - 1 {
      FieldErrorsComplete(s, item, position, fields, k - 1, j);
    }
  }

  /** The errors of one item name distinct fields, in the order of `fields`, all among the first `k`. */
  lemma {:induction false} FieldErrorsOrdered(s: Section, item: Item, position: nat, fields: seq<string>, k: nat)
    requires DistinctFields(fields) && k <= |fields|
    ensures FieldsInOrder(fields, FieldErrors(s, item, position, fields, k), k)
  {
    if k > 0 {
      FieldErrorsOrdered(s, item, position, fields, k - 1);
      var f := fields[k - 1];
      var prior := FieldErrors(s, item, position, fields, k - 1);
      if f in item {
        assert FieldErrors(s, item, position, fields, k) == prior;
        InOrderWiden(fields, prior, k - 1);
      } else {
        assert FieldErrors(s, item, position, fields, k) == prior + [MissingField(s, position, f)];
        InOrderSnoc(fields, prior, MissingField(s, position, f), k);
      }
    }
  }

  /** Errors in order among the first `k` fields are in order among the first `k + 1`. */
  lemma InOrderWiden(fields: seq<string>, errs: seq<ValidationError>, k: nat)
    requires DistinctFields(fields) && FieldsInOrder(fields, errs, k)
    ensures FieldsInOrder(fields, errs, k + 1)
  {
  }

  /** An error for field `k - 1` may follow errors for earlier fields. */
  lemma InOrderSnoc(fields: seq<string>, prior: seq<ValidationError>, e: ValidationError, k: nat)
    requires DistinctFields(fields) && 0 < k <= |fields| && FieldsInOrder(fields, prior, k - 1)
    requires e.MissingField? && e.field == fields[k - 1]
    ensures FieldsInOrder(fields, prior + [e], k)
  {
    var errs := prior + [e];
    assert FieldIndex(fields, e.field) == k - 1;
    forall a | 0 <= a < |errs| ensures errs[a].MissingField? && errs[a].field in fields && FieldIndex(fields, errs[a].field) < k {
      if a < |prior| {
        assert errs[a] == prior[a];
      }
    }
    forall a, b | 0 <= a < b < |errs| ensures FieldIndex(fields, errs[a].field) < FieldIndex(fields, errs[b].field) {
      assert errs[a] == prior[a];
      if b < |prior| {
        assert errs[b] == prior[b];
      }
    }
  }

  /**
   * With the list present, an error is reported for exactly the pairs of an
   * item (counted from 1) and a required field that item lacks.
   */
  lemma {:induction false} ItemErrorsComplete(s: Section, items: seq<Item>, position: nat, field: string)
    requires 1 <= position <= |items| && field in s.Fields() && field !in items[position - 1]
    ensures MissingField(s, position, field) in ItemErrors(s, items)
  {
    var n := |items|;
    var fields := s.Fields();
    var prior := ItemErrors(s, items[..n - 1]);
    var last := FieldErrors(s, items[n - 1], n, fields, |fields|);
    assert ItemErrors(s, items) == prior + last;
    if position < n {
      assert items[..n - 1][position - 1] == items[position - 1];
      ItemErrorsComplete(s, items[..n - 1], position, field);
    } else {
      var j := FieldIndex(fields, field);
      FieldErrorsComplete(s, items[n - 1], n, fields, |fields|, j);
    }
  }

  /** Errors come item by item, and within an item in the order of the required fields. */
  ghost predicate ItemsInOrder(s: Section, errs: seq<ValidationError>) {
    && (forall a :: 0 <= a < |errs| ==> errs[a].MissingField? && errs[a].field in s.Fields())
    && (forall a, b :: 0 <= a < b < |errs| ==>
      || errs[a].position < errs[b].position
      || (errs[a].position == errs[b].position && FieldIndex(s.Fields(), errs[a].field) < FieldIndex(s.Fields(), errs[b].field)))
  }

  /** The validator's errors are in item order and then field order, so none is reported twice. */
  lemma {:induction false} ItemErrorsOrdered(s: Section, items: seq<Item>)
    ensures ItemsInOrder(s, ItemErrors(s, items))
  {
    if items != [] {
      var n := |items|;
      var fields := s.Fields();
      ItemErrorsOrdered(s, items[..n - 1]);
      FieldErrorsOrdered(s, items[n - 1], n, fields, |fields|);
      var prior := ItemErrors(s, items[..n - 1]);
      var last := FieldErrors(s, items[n - 1], n, fields, |fields|);
      var errs := ItemErrors(s, items);
      assert errs == prior + last;
      forall a | 0 <= a < |errs| ensures errs[a].MissingField? && errs[a].field in fields {
        assert errs[a] in errs;
      }
      forall a, b | 0 <= a < b < |errs|
        ensures errs[a].position < errs[b].position ||
          (errs[a].position == errs[b].position && FieldIndex(fields, errs[a].field) < FieldIndex(fields, errs[b].field))
      {
        if b < |prior| {
          assert errs[a] == prior[a] && errs[b] == prior[b];
        } else if a < |prior| {
          assert errs[a] == prior[a] && errs[b] == last[b - |prior|];
          assert errs[a] in prior && errs[b] in last;
        } else {
          assert errs[a] == last[a - |prior|] && errs[b] == last[b - |prior|];
          assert last[a - |prior|] in last && last[b - |prior|] in last;
        }
      }
    }
  }

  /** The inner loop of `validate_config`: the required fields one item lacks, in field order. */
  method ValidateItem(s: Section, item: Item, position: nat) returns (errors: seq<ValidationError>)
    ensures errors == FieldErrors(s, item, position, s.Fields(), |s.Fields()|)
  {
    var fields := s.Fields();
    errors := [];
    var j := 0;
    while j < |fields|
      invariant 0 <= j <= |fields|
      invariant errors == FieldErrors(s, item, position, fields, j)
    {
      if fields[j] !in item {
        errors := errors + [MissingField(s, position, fields[j])];
      }
      j := j + 1;
    }
  }

  /** The outer loop of `validate_config`, over the items of a present list. */
  method ValidateItems(s: Section, items: seq<Item>) returns (errors: seq<ValidationError>)
    ensures errors == ItemErrors(s, items)
  {
    errors := [];
    var i := 0;
    while i < |items|
      invariant 0 <= i <= |items|
      invariant errors == ItemErrors(s, items[..i])
    {
      var more := ValidateItem(s, items[i], i + 1);
      assert items[..i + 1][..i] == items[..i];
      errors := errors + more;
      i := i + 1;
    }
    assert items[..i] == items;
  }

  /** `validate_config` */
  method ValidateConfig(configType: string, data: Document) returns (errors: seq<ValidationError>)
    ensures errors == Errors(configType, data)
  {
    var section := SectionNamed(configType);
    if section.None? {
      return [];
    }
    var s := section.value;
    if s.Key() !in data {
      return [MissingSection(s)];
    }
    errors := ValidateItems(s, data[s.Key()]);
  }

  // ---------------------------------------------------------------------
  // load_ingredients / load_recipes

  /** `for enum_type in IngredientType: if enum_type.name == name`, the member so named. */
  function TypeNamed(name: string): (t: Option<IngredientType>)
    ensures t.Some? ==> TypeName(t.value) == name
  {
    if name == "BASE_SPIRIT" then Some(BaseSpirit)
    else if name == "LIQUEUR" then Some(Liqueur)
    else if name == "MIXER" then Some(Mixer)
    else if name == "GARNISH" then Some(Garnish)
    else if name == "ICE" then Some(Ice)
    else None
  }

  /** A name is resolved exactly when some member carries it, and then to that member. */
  lemma TypeNamedComplete(name: string)
    ensures TypeNamed(name).Some? <==> exists u :: TypeName(u) == name
    ensures forall u :: TypeName(u) == name ==> TypeNamed(name) == Some(u)
  {
    forall u | TypeName(u) == name ensures TypeNamed(name) == Some(u) {
      match u
      case BaseSpirit =>
      case Liqueur =>
      case Mixer =>
      case Garnish =>
      case Ice =>
    }
  }

  /** The enumeration visits every member. */
  lemma EveryTypeListed(u: IngredientType)
    ensures u in AllTypes
  {
    match u
    case BaseSpirit => assert AllTypes[0] == u;
    case Liqueur => assert AllTypes[1] == u;
    case Mixer => assert AllTypes[2] == u;
    case Garnish => assert AllTypes[3] == u;
    case Ice => assert AllTypes[4] == u;
  }

  /** The enumeration loop itself, in member declaration order. */
  method ResolveType(name: string) returns (t: Option<IngredientType>)
    ensures t == TypeNamed(name)
  {
    TypeNamedComplete(name);
    if TypeNamed(name).Some? {
      EveryTypeListed(TypeNamed(name).value);
    }
    var i := 0;
    while i < |AllTypes|
      invariant 0 <= i <= |AllTypes|
      invariant forall j :: 0 <= j < i ==> TypeName(AllTypes[j]) != name
    {
      if TypeName(AllTypes[i]) == name {
        return Some(AllTypes[i]);
      }
      i := i + 1;
    }
    return None;
  }

  /**
   * What one item contributes: an entry, nothing (skipped), or an exception
   * that abandons the whole file.
   */
  datatype Outcome<T> = Entry(value: T) | Skipped | Failed

  /** The item carries every field `s` requires. */
  predicate HasFields(s: Section, item: Item)
  {
    forall f :: f in s.Fields() ==> f in item
  }

  /** The type field as an enumeration member; a value that is not a string names none. */
  function TypeOf(item: Item): Option<IngredientType>
    requires "type" in item
  {
    match item["type"]
    case Str(s) => TypeNamed(s)
    case _ => None
  }

  /**
   * One pass of the `load_ingredients` loop: a missing "type" raises; an
   * unknown type skips the item (its warning still reads "name"); otherwise
   * every field is read.
   */
  function IngredientOutcome(item: Item): (o: Outcome<Ingredient>)
    ensures o.Entry? <==>
      && HasFields(IngredientsSection, item)
      && TypeOf(item).Some? && item["name"].Str? && item["alcohol_content"].Num?
    ensures o.Entry? ==>
      && HasFields(IngredientsSection, item) && TypeOf(item).Some?
      && o.value == Ingredient(item["name"].s, TypeOf(item).value, item["alcohol_content"].n)
    ensures o.Skipped? <==> "type" in item && TypeOf(item).None? && "name" in item
  {
    if "type" !in item then Failed
    else match TypeOf(item)
      case None => if "name" in item then Skipped else Failed
      case Some(t) =>
        if HasFields(IngredientsSection, item) then
          match (item["name"], item["alcohol_content"])
          case (Str(name), Num(alcohol)) => Entry(Ingredient(name, t, alcohol))
          case _ => Failed
        else Failed
  }

  /** One pass of the `load_recipes` loop: every field is read, so any missing one raises. */
  function RecipeOutcome(item: Item): (o: Outcome<Recipe>)
    ensures o.Entry? <==>
      && HasFields(RecipesSection, item)
      && item["name"].Str? && item["ingredients"].Amounts? && item["difficulty"].Num? && item["flavor_tags"].Strs?
    ensures o.Entry? ==>
      && HasFields(RecipesSection, item)
      && o.value == Recipe(item["name"].s, item["ingredients"].amounts, item["difficulty"].n, item["flavor_tags"].ss)
    ensures !o.Skipped?
  {
    if HasFields(RecipesSection, item) then
      match (item["name"], item["ingredients"], item["difficulty"], item["flavor_tags"])
      case (Str(name), Amounts(amounts), Num(difficulty), Strs(tags)) => Entry(Recipe(name, amounts, difficulty, tags))
      case _ => Failed
    else Failed
  }

  /**
   * The dict the loop builds from `items`, or `None` when some item raised:
   * each entry is inserted under its name, so a later one replaces an earlier one.
   */
  function Collect<T>(items: seq<Item>, outcome: Item -> Outcome<T>, name: T -> string): (r: Option<Dict<string, T>>)
    ensures r.Some? ==> r.value.Valid() && forall k :: k in r.value.items ==> name(r.value.items[k]) == k
  {
    if items == [] then Some(Empty())
    else
      match Collect(items[..|items| - 1], outcome, name)
      case None => None
      case Some(d) =>
        match outcome(items[|items| - 1])
        case Failed => None
        case Skipped => Some(d)
        case Entry(v) => Some(d.Put(name(v), v))
  }

  /** An item that is skipped changes nothing. */
  lemma SkippedChangesNothing<T>(items: seq<Item>, item: Item, outcome: Item -> Outcome<T>, name: T -> string)
    requires outcome(item).Skipped?
    ensures Collect(items + [item], outcome, name) == Collect(items, outcome, name)
  {
    assert (items + [item])[..|items|] == items;
  }

  /** One item that raises loses the whole file, wherever it sits. */
  lemma {:induction false} FailureIsFatal<T>(items: seq<Item>, i: nat, outcome: Item -> Outcome<T>, name: T -> string)
    requires i < |items| && outcome(items[i]).Failed?
    ensures Collect(items, outcome, name).None?
  {
    if i < |items| - 1 {
      FailureIsFatal(items[..|items| - 1], i, outcome, name);
    }
  }

  /** The entry the table keeps under a name is the last item that produced that name. */
  lemma {:induction false} LastEntryWins<T>(items: seq<Item>, i: nat, outcome: Item -> Outcome<T>, name: T -> string)
    requires Collect(items, outcome, name).Some?
    requires i < |items| && outcome(items[i]).Entry?
    requires forall j :: i < j < |items| && outcome(items[j]).Entry? ==> name(outcome(items[j]).value) != name(outcome(items[i]).value)
    ensures var d := Collect(items, outcome, name).value;
      name(outcome(items[i]).value) in d.items && d.items[name(outcome(items[i]).value)] == outcome(items[i]).value
  {
    if i < |items| - 1 {
      LastEntryWins(items[..|items| - 1], i, outcome, name);
    }
  }

  /** The loop shared by `load_ingredients` and `load_recipes`. */
  method CollectEntries<T>(items: seq<Item>, outcome: Item -> Outcome<T>, name: T -> string) returns (r: Option<Dict<string, T>>)
    ensures r == Collect(items, outcome, name)
  {
    var table: Dict<string, T> := Empty();
    var i := 0;
    while i < |items|
      invariant 0 <= i <= |items|
      invariant Collect(items[..i], outcome, name) == Some(table)
    {
      assert items[..i + 1][..i] == items[..i];
      var o := outcome(items[i]);
      if o.Failed? {
        FailureIsFatal(items, i, outcome, name);
        return None;
      } else if o.Entry? {
        table := table.Put(name(o.value), o.value);
      }
      i := i + 1;
    }
    assert items[..i] == items;
    return Some(table);
  }

  function IngredientName(i: Ingredient): string {
    i.name
  }

  function RecipeName(r: Recipe): string {
    r.name
  }

  /** `data.get(key, [])` */
  function ItemsOf(data: Document, key: string): seq<Item> {
    if key in data then data[key] else []
  }

  /**
   * `load_ingredients`: the parsed file's ingredients keyed by name, or the
   * defaults when the file could not be read or some item raised.
   */
  method LoadIngredients(data: Option<Document>) returns (ingredients: Dict<string, Ingredient>)
    ensures data.None? ==> ingredients == DefaultIngredients()
    ensures data.Some? ==> ingredients == Collect(ItemsOf(data.value, "ingredients"), IngredientOutcome, IngredientName).GetOr(DefaultIngredients())
    ensures ingredients.Valid() && forall k :: k in ingredients.items ==> ingredients.items[k].name == k
  {
    if data.None? {
      return DefaultIngredients();
    }
    var r := CollectEntries(ItemsOf(data.value, "ingredients"), IngredientOutcome, IngredientName);
    ingredients := r.GetOr(DefaultIngredients());
  }

  /** `load_recipes`, on the same pattern. */
  method LoadRecipes(data: Option<Document>) returns (recipes: Dict<string, Recipe>)
    ensures data.None? ==> recipes == DefaultRecipes()
    ensures data.Some? ==> recipes == Collect(ItemsOf(data.value, "recipes"), RecipeOutcome, RecipeName).GetOr(DefaultRecipes())
    ensures recipes.Valid() && forall k :: k in recipes.items ==> recipes.items[k].name == k
  {
    if data.None? {
      return DefaultRecipes();
    }
    var r := CollectEntries(ItemsOf(data.value, "recipes"), RecipeOutcome, RecipeName);
    recipes := r.GetOr(DefaultRecipes());
  }

  /** An ingredient whose type names no member is skipped and the rest are kept. */
  lemma UnknownTypeSkipped(items: seq<Item>, item: Item)
    requires "type" in item && "name" in item && item["type"].Str? && !(exists u :: TypeName(u) == item["type"].s)
    ensures Collect(items + [item], IngredientOutcome, IngredientName) == Collect(items, IngredientOutcome, IngredientName)
  {
    SkippedChangesNothing(items, item, IngredientOutcome, IngredientName);
  }

  // ---------------------------------------------------------------------
  // The built-in defaults

  /** `_get_default_ingredients` */
  function DefaultIngredients(): (t: Dict<string, Ingredient>)
    ensures IngredientTable(t)
  {
    Dict(
      ["白朗姆酒", "伏特加", "青柠汁", "糖浆", "冰块"],
      map[
        "白朗姆酒" := Ingredient("白朗姆酒", BaseSpirit, 40),
        "伏特加" := Ingredient("伏特加", BaseSpirit, 40),
        "青柠汁" := Ingredient("青柠汁", Mixer, 0),
        "糖浆" := Ingredient("糖浆", Mixer, 0),
        "冰块" := Ingredient("冰块", Ice, 0)
      ])
  }

  const SimpleMixAmounts: Dict<string, int> :=
    Dict(["伏特加", "青柠汁", "糖浆", "冰块"], map["伏特加" := 50, "青柠汁" := 20, "糖浆" := 15, "冰块" := 150])

  /** `_get_default_recipes` */
  function DefaultRecipes(): (t: Dict<string, Recipe>)
    ensures RecipeTable(t)
  {
    Dict(["简单调酒"], map["简单调酒" := Recipe("简单调酒", SimpleMixAmounts, 1, ["简单", "清爽"])])
  }

  /** The parts of the game configuration the model reads. */
  datatype GameConfig = GameConfig(
    initialUnlocked: seq<string>,
    difficultyLevels: map<string, string>,
    itemsPerPage: int,
    autoLayoutThreshold: int)

  /** `_get_default_game_config` */
  const DefaultGameConfig: GameConfig := GameConfig(
    ["简单调酒"],
    map["1" := "简单", "2" := "容易", "3" := "中等", "4" := "困难", "5" := "专家"],
    6,
    100)

  /** The default recipe uses only default ingredients, so the default catalog scores without missing lookups. */
  lemma DefaultRecipeResolves()
    ensures ReferencesResolve(DefaultIngredients(), DefaultRecipes())
    ensures WellFormedCatalog(DefaultIngredients(), DefaultRecipes())
  {
    var recipes := DefaultRecipes();
    assert recipes.items.Keys == {"简单调酒"};
    assert SimpleMixAmounts.items.Keys == {"伏特加", "青柠汁", "糖浆", "冰块"};
  }

  /** The default unlocked list names only default recipes. */
  lemma DefaultUnlockedKnown()
    ensures forall n :: n in DefaultGameConfig.initialUnlocked ==> n in DefaultRecipes().items
  {
  }

  /** The default page size is one the paged ingredient list accepts, and every difficulty 1-5 has a name. */
  lemma DefaultGameConfigUsable()
    ensures DefaultGameConfig.itemsPerPage > 0
    ensures forall d :: 1 <= d <= 5 ==> NatToString(d) in DefaultGameConfig.difficultyLevels
  {
    forall d | 1 <= d <= 5 ensures NatToString(d) in DefaultGameConfig.difficultyLevels {
      assert NatToString(d) == ["012345"[d]];
    }
  }
}
