/**
 * The catalog `CocktailSystem` builds at start-up, entry by entry in the
 * order of the source's dict displays.
 */
module DefaultCatalog {
  import opened Dicts
  import opened Domain

  /** The base spirits. */
  const Spirits: seq<Listed> := [
    Ingredient("白朗姆酒", BaseSpirit, 40),
    Ingredient("黑朗姆酒", BaseSpirit, 40),
    Ingredient("龙舌兰酒", BaseSpirit, 40),
    Ingredient("伏特加", BaseSpirit, 40),
    Ingredient("金酒", BaseSpirit, 40),
    Ingredient("威士忌", BaseSpirit, 40),
    Ingredient("白兰地", BaseSpirit, 40)
  ]

  /** The liqueurs. */
  const Liqueurs: seq<Listed> := [
    Ingredient("君度橙酒", Liqueur, 40),
    Ingredient("咖啡利口酒", Liqueur, 20),
    Ingredient("椰子利口酒", Liqueur, 21),
    Ingredient("桃子利口酒", Liqueur, 15)
  ]

  /** The mixers. */
  const Mixers: seq<Listed> := [
    Ingredient("青柠汁", Mixer, 0),
    Ingredient("柠檬汁", Mixer, 0),
    Ingredient("橙汁", Mixer, 0),
    Ingredient("蔓越莓汁", Mixer, 0),
    Ingredient("菠萝汁", Mixer, 0),
    Ingredient("糖浆", Mixer, 0),
    Ingredient("石榴糖浆", Mixer, 0),
    Ingredient("苏打水", Mixer, 0),
    Ingredient("汤力水", Mixer, 0),
    Ingredient("姜汁汽水", Mixer, 0),
    Ingredient("椰浆", Mixer, 0),
    Ingredient("鲜奶油", Mixer, 0)
  ]

  /** The garnishes. */
  const Garnishes: seq<Listed> := [
    Ingredient("薄荷叶", Garnish, 0),
    Ingredient("盐边", Garnish, 0),
    Ingredient("糖边", Garnish, 0),
    Ingredient("柠檬片", Garnish, 0),
    Ingredient("橙片", Garnish, 0),
    Ingredient("樱桃", Garnish, 0),
    Ingredient("橄榄", Garnish, 0)
  ]

  /** The two kinds of ice. */
  const Ices: seq<Listed> := [
    Ingredient("冰块", Ice, 0),
    Ingredient("碎冰", Ice, 0)
  ]

  /** The entries added after the ice. */
  const Additions: seq<Listed> := [
    Ingredient("干味美思", Liqueur, 18),
    Ingredient("蓝柑橘利口酒", Liqueur, 23),
    Ingredient("杏仁糖浆", Mixer, 0),
    Ingredient("咖啡", Mixer, 0),
    Ingredient("番茄汁", Mixer, 0),
    Ingredient("辣椒酱", Mixer, 0),
    Ingredient("盐", Garnish, 0),
    Ingredient("可乐", Mixer, 0)
  ]

  /** The entries of `CocktailSystem._init_ingredients`, in their order. */
  const IngredientList: seq<Listed> := Spirits + Liqueurs + Mixers + Garnishes + Ices + Additions

  /** The recipes of `CocktailSystem._init_recipes`. */
  const Mojito: WellFormed := Recipe("莫吉托", AmountsOf(["白朗姆酒", "青柠汁", "糖浆", "薄荷叶", "苏打水", "冰块"], map["白朗姆酒" := 50, "青柠汁" := 20, "糖浆" := 15, "薄荷叶" := 8, "苏打水" := 100, "冰块" := 150]), 2, ["清爽", "薄荷", "热带"])
  const Margarita: WellFormed := Recipe("玛格丽特", AmountsOf(["龙舌兰酒", "君度橙酒", "青柠汁", "盐边", "冰块"], map["龙舌兰酒" := 50, "君度橙酒" := 25, "青柠汁" := 25, "盐边" := 1, "冰块" := 150]), 3, ["酸甜", "经典", "墨西哥"])
  const Martini: WellFormed := Recipe("马提尼", AmountsOf(["金酒", "干味美思", "橄榄", "冰块"], map["金酒" := 60, "干味美思" := 10, "橄榄" := 1, "冰块" := 120]), 4, ["经典", "优雅", "干净"])
  const GinTonic: WellFormed := Recipe("金汤力", AmountsOf(["金酒", "汤力水", "青柠汁", "冰块"], map["金酒" := 50, "汤力水" := 150, "青柠汁" := 10, "冰块" := 120]), 1, ["清爽", "经典", "英式"])
  const WhiskeySour: WellFormed := Recipe("威士忌酸", AmountsOf(["威士忌", "柠檬汁", "糖浆", "樱桃", "冰块"], map["威士忌" := 60, "柠檬汁" := 30, "糖浆" := 20, "樱桃" := 1, "冰块" := 150]), 2, ["酸甜", "经典", "威士忌"])
  const PinaColada: WellFormed := Recipe("椰林飘香", AmountsOf(["白朗姆酒", "椰子利口酒", "菠萝汁", "椰浆", "碎冰"], map["白朗姆酒" := 45, "椰子利口酒" := 30, "菠萝汁" := 90, "椰浆" := 30, "碎冰" := 180]), 2, ["热带", "椰香", "甜美"])
  const BlueHawaii: WellFormed := Recipe("蓝色夏威夷", AmountsOf(["白朗姆酒", "伏特加", "蓝柑橘利口酒", "菠萝汁", "椰浆", "碎冰"], map["白朗姆酒" := 40, "伏特加" := 20, "蓝柑橘利口酒" := 20, "菠萝汁" := 60, "椰浆" := 30, "碎冰" := 150]), 3, ["热带", "梦幻", "果香"])
  const MaiTai: WellFormed := Recipe("迈泰", AmountsOf(["白朗姆酒", "黑朗姆酒", "君度橙酒", "杏仁糖浆", "青柠汁", "菠萝汁", "碎冰"], map["白朗姆酒" := 30, "黑朗姆酒" := 30, "君度橙酒" := 15, "杏仁糖浆" := 15, "青柠汁" := 20, "菠萝汁" := 60, "碎冰" := 180]), 4, ["热带", "复杂", "果香"])
  const SexOnTheBeach: WellFormed := Recipe("性感海滩", AmountsOf(["伏特加", "桃子利口酒", "蔓越莓汁", "菠萝汁", "冰块"], map["伏特加" := 40, "桃子利口酒" := 20, "蔓越莓汁" := 60, "菠萝汁" := 60, "冰块" := 150]), 2, ["果味", "浪漫", "甜美"])
  const Cosmopolitan: WellFormed := Recipe("大都会", AmountsOf(["伏特加", "君度橙酒", "蔓越莓汁", "青柠汁", "冰块"], map["伏特加" := 45, "君度橙酒" := 15, "蔓越莓汁" := 30, "青柠汁" := 15, "冰块" := 120]), 3, ["时尚", "果味", "都市"])
  const Screwdriver: WellFormed := Recipe("螺丝刀", AmountsOf(["伏特加", "橙汁", "冰块"], map["伏特加" := 50, "橙汁" := 120, "冰块" := 150]), 1, ["简单", "果味", "清爽"])
  const WhiteRussian: WellFormed := Recipe("白俄罗斯", AmountsOf(["伏特加", "咖啡利口酒", "鲜奶油", "冰块"], map["伏特加" := 50, "咖啡利口酒" := 25, "鲜奶油" := 25, "冰块" := 120]), 2, ["咖啡", "奶香", "浓郁"])
  const BlackRussian: WellFormed := Recipe("黑俄罗斯", AmountsOf(["伏特加", "咖啡利口酒", "冰块"], map["伏特加" := 50, "咖啡利口酒" := 25, "冰块" := 120]), 1, ["咖啡", "简洁", "浓烈"])
  const IrishCoffee: WellFormed := Recipe("爱尔兰咖啡", AmountsOf(["威士忌", "咖啡", "糖浆", "鲜奶油"], map["威士忌" := 40, "咖啡" := 120, "糖浆" := 15, "鲜奶油" := 30]), 3, ["温暖", "咖啡", "奶香"])
  const MoscowMule: WellFormed := Recipe("莫斯科骡子", AmountsOf(["伏特加", "青柠汁", "姜汁汽水", "冰块"], map["伏特加" := 50, "青柠汁" := 15, "姜汁汽水" := 120, "冰块" := 150]), 2, ["清爽", "姜味", "传统"])
  const BloodyMary: WellFormed := Recipe("血腥玛丽", AmountsOf(["伏特加", "番茄汁", "柠檬汁", "辣椒酱", "盐", "冰块"], map["伏特加" := 50, "番茄汁" := 120, "柠檬汁" := 15, "辣椒酱" := 2, "盐" := 1, "冰块" := 150]), 3, ["咸鲜", "辛辣", "早餐"])
  const LongIslandIcedTea: WellFormed := Recipe("长岛冰茶", AmountsOf(["伏特加", "金酒", "白朗姆酒", "龙舌兰酒", "君度橙酒", "柠檬汁", "糖浆", "可乐", "冰块"], map["伏特加" := 15, "金酒" := 15, "白朗姆酒" := 15, "龙舌兰酒" := 15, "君度橙酒" := 15, "柠檬汁" := 25, "糖浆" := 20, "可乐" := 60, "冰块" := 180]), 5, ["强烈", "复杂", "经典"])

  /** The recipes of `CocktailSystem._init_recipes`, in their order. */
  const RecipeList: seq<WellFormed> := [
    Mojito, Margarita, Martini, GinTonic, WhiskeySour, PinaColada,
    BlueHawaii, MaiTai, SexOnTheBeach, Cosmopolitan, Screwdriver, WhiteRussian,
    BlackRussian, IrishCoffee, MoscowMule, BloodyMary, LongIslandIcedTea
  ]

  function Ingredients(): (t: Dict<string, Ingredient>)
    ensures IngredientTable(t)
  {
    IngredientTableOf(IngredientList)
  }

  function Recipes(): (t: Dict<string, Recipe>)
    ensures RecipeTable(t)
  {
    RecipeTableOf(RecipeList)
  }

  /**
   * `CocktailSystem.__init__`: the recipes unlocked at the start of a game,
   * "莫吉托", "玛格丽特", "金汤力", "螺丝刀" and "黑俄罗斯", written through the
   * recipes that carry those names.
   */
  const InitialUnlocked: seq<string> := [Mojito.name, Margarita.name, GinTonic.name, Screwdriver.name, BlackRussian.name]
}
