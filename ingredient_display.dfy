/**
 * `IngredientDisplayNew`: the ingredient list in pages of a configurable
 * size, a selection built with the 15 ml toggle, and the table's shortened
 * descriptions.
 */
module IngredientDisplay {
  import opened Wrappers
  import opened Dicts
  import opened Domain
  import opened Selection

  const DefaultPerPage: int := 6
  const Step: int := 15
  /** The longest description shown in full. */
  const DescriptionWidth: nat := 25

  /** The buttons `prev-page`, `next-page`, `select-i`, `clear-selection` and `start-mixing`. */
  datatype Button = PrevButton | NextButton | SelectButton(index: int) | ClearButton | StartButton

  /** `ui_settings.get("items_per_page", 6)`, with `None` for a missing key. */
  function ItemsPerPage(configured: Option<int>): (n: int)
    ensures configured.None? ==> n == DefaultPerPage
    ensures configured.Some? ==> n == configured.value
  {
    configured.GetOr(DefaultPerPage)
  }

  /** The description column: the text itself up to 25 characters, else its first 25 and "...". */
  function ShortDescription(description: string): (s: string)
    ensures |description| <= DescriptionWidth ==> s == description
    ensures |description| > DescriptionWidth ==>
      |s| == DescriptionWidth + 3 && s[..DescriptionWidth] == description[..DescriptionWidth] && s[DescriptionWidth..] == "..."
  {
    if |description| > DescriptionWidth then description[..DescriptionWidth] + "..." else description
  }

  /** A shown description is never longer than 28 characters and always starts the real one. */
  lemma ShortDescriptionBounded(description: string)
    ensures |ShortDescription(description)| <= DescriptionWidth + 3
    ensures var s := ShortDescription(description);
      var shown := if |s| <= DescriptionWidth then |s| else DescriptionWidth;
      s[..shown] == description[..shown]
  {
  }

  /** The exceptions the display's handlers can raise. */
  datatype PyError = ZeroDivisionError | IndexError

  /** Python's `a // b`: the quotient rounded toward minus infinity. */
  function FloorDiv(a: int, b: int): (q: int)
    requires b != 0
    ensures b > 0 ==> b * q <= a < b * q + b
    ensures b < 0 ==> b * q + b < a <= b * q
  {
    if b > 0 then a / b else (-a) / (-b)
  }

  /** `(len(ingredients) + items_per_page - 1) // items_per_page`, for any non-zero page size. */
  function TotalPages(n: nat, per: int): (t: int)
    requires per != 0
    ensures per > 0 ==> t == PageCount(n, per)
    ensures per < 0 && n + per - 1 >= 0 ==> t <= 0
  {
    FloorDiv(n + per - 1, per)
  }

  /** The position `xs[k]` reads, counting from the end when `k` is negative. */
  function PyIndex(len: nat, k: int): (i: nat)
    requires -(len as int) <= k < len
    ensures i < len
    ensures k >= 0 ==> i == k
    ensures k < 0 ==> i == len + k
  {
    if k < 0 then len + k else k
  }

  /**
   * `_select_ingredient(idx)`: nothing happens when `start + idx` is past the
   * list; otherwise the ingredient `ingredients[start + idx]` is toggled,
   * where a negative position counts from the end and one before the start
   * of the list raises `IndexError` (`None` here).
   */
  function SelectAt(items: seq<Ingredient>, sel: Amounts, page: nat, per: int, index: nat): (r: Option<Amounts>)
    requires sel.Valid()
    ensures r.None? <==> page * per + index < -|items|
    ensures per >= 0 ==> r.Some?
    ensures r.Some? ==> r.value.Valid()
    ensures page * per + index >= |items| ==> r == Some(sel)
    ensures 0 <= page * per + index < |items| ==> r == Some(Toggle(sel, items[page * per + index].name, Step))
    ensures -|items| <= page * per + index < 0 ==> r == Some(Toggle(sel, items[|items| + page * per + index].name, Step))
  {
    var k := page * per + index;
    if k >= |items| then Some(sel)
    else if k < -|items| then None
    else Some(Toggle(sel, items[PyIndex(|items|, k)].name, Step))
  }

  class IngredientDisplayNew {
    /** `cocktail_system.get_available_ingredients()`, which no handler changes. */
    const items: seq<Ingredient>
    /** Taken from the configuration unchecked: it may be zero or negative. */
    const perPage: int
    var selected: Amounts
    var page: nat

    ghost predicate Valid()
      reads this
    {
      && selected.Valid()
      && OnFifteenGrid(selected)
      && (perPage > 0 ==> PageInRange(page, |items|, perPage))
    }

    /** `configured` is the game configuration's `ui_settings.items_per_page`, if present. */
    constructor (items: seq<Ingredient>, configured: Option<int>)
      ensures Valid()
      ensures this.items == items && perPage == ItemsPerPage(configured)
      ensures selected == Empty() && page == 0
    {
      this.items := items;
      perPage := ItemsPerPage(configured);
      selected := Empty();
      page := 0;
    }

    /**
     * `on_button_pressed`.  `raised` is the exception the handler would
     * raise: next-page divides by the page size, and select indexes the
     * list; a raising handler changes nothing.
     */
    method Press(button: Button) returns (posted: Option<Amounts>, raised: Option<PyError>)
      requires Valid()
      requires button.SelectButton? ==> button.index >= 0
      modifies this
      ensures Valid()
      ensures raised == Some(ZeroDivisionError) <==> button == NextButton && perPage == 0
      ensures raised == Some(IndexError) <==>
        button.SelectButton? && SelectAt(items, old(selected), old(page), perPage, button.index).None?
      ensures raised.Some? ==> posted.None? && page == old(page) && selected == old(selected)
      ensures button == PrevButton ==> page == PrevPage(old(page)) && selected == old(selected)
      ensures button == NextButton && perPage > 0 ==> page == NextPage(old(page), |items|, perPage) && selected == old(selected)
      ensures button == NextButton && perPage != 0 ==>
        (page == old(page) + 1 <==> old(page) + 1 < TotalPages(|items|, perPage)) && (page == old(page) || page == old(page) + 1)
      ensures button.SelectButton? && raised.None? ==>
        page == old(page) && selected == SelectAt(items, old(selected), page, perPage, button.index).value
      ensures button == ClearButton ==> page == old(page) && selected == Empty()
      ensures button == StartButton ==> page == old(page) && selected == old(selected)
      ensures posted.Some? <==> button == StartButton && selected.keys != []
      ensures posted.Some? ==> posted.value == selected
    {
      posted, raised := None, None;
      match button
      case PrevButton =>
        if page > 0 {
          page := page - 1;
        }
      case NextButton =>
        if perPage == 0 {
          raised := Some(ZeroDivisionError);
        } else if page < TotalPages(|items|, perPage) - 1 {
          page := page + 1;
        }
      case SelectButton(index) =>
        var start := page * perPage;
        if start + index < |items| {
          if start + index < -|items| {
            raised := Some(IndexError);
          } else {
            var name := items[PyIndex(|items|, start + index)].name;
            ToggleFifteenStaysOnGrid(selected, name);
            selected := Toggle(selected, name, Step);
          }
        }
      case ClearButton =>
        selected := Empty();
      case StartButton =>
        if selected.keys != [] {
          posted := Some(selected);
        }
    }
  }
}
