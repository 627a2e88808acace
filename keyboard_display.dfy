/**
 * `KeyboardIngredientDisplay`: six ingredients per page, a focused slot on
 * the page, and a selection built with the 15 ml toggle.  Buttons and keys
 * drive the same state.
 */
module KeyboardDisplay {
  import opened Wrappers
  import opened Dicts
  import opened Domain
  import opened Selection

  const PerPage: int := 6
  const Step: int := 15

  /** The buttons `prev-page`, `next-page`, `ingredient-i` (one per page slot), `clear-selection` and `start-mixing`. */
  datatype Button = PrevButton | NextButton | IngredientButton(slot: int) | ClearButton | StartButton

  /** The focus after `up`: one slot back unless already on the first. */
  function FocusUp(focus: int): (f: int)
    ensures focus > 0 ==> f == focus - 1
    ensures focus <= 0 ==> f == focus
  {
    if focus > 0 then focus - 1 else focus
  }

  /** The focus after `down` on a page of `len` items: one slot on unless on the last item. */
  function FocusDown(focus: int, len: nat): (f: int)
    ensures focus < len - 1 ==> f == focus + 1
    ensures focus >= len - 1 ==> f == focus
  {
    if focus < len - 1 then focus + 1 else focus
  }

  /** Up and down never move a focus that is on the page off it. */
  lemma FocusStaysOnPage(focus: int, len: nat)
    requires 0 <= focus < len
    ensures 0 <= FocusUp(focus) < len
    ensures 0 <= FocusDown(focus, len) < len
  {
  }

  /** `_get_current_ingredient`: the ingredient in the focused slot of the current page, if any. */
  function FocusedIngredient(items: seq<Ingredient>, page: nat, focus: int): (r: Option<Ingredient>)
    requires 0 <= focus
    ensures r.Some? <==> page * PerPage + focus < |items| && focus < PerPage
    ensures r.Some? ==> r.value == items[page * PerPage + focus]
  {
    var current := PageSlice(items, page, PerPage);
    if focus < |current| then Some(current[focus]) else None
  }

  /** `_select_ingredient`: toggle the focused ingredient, or change nothing when the slot is empty. */
  function SelectFocused(items: seq<Ingredient>, sel: Amounts, page: nat, focus: int): (r: Amounts)
    requires sel.Valid() && 0 <= focus
    ensures r.Valid()
  {
    match FocusedIngredient(items, page, focus)
    case Some(ingredient) => Toggle(sel, ingredient.name, Step)
    case None => sel
  }

  /** A slot beyond the end of the list selects nothing. */
  lemma EmptySlotSelectsNothing(items: seq<Ingredient>, sel: Amounts, page: nat, focus: int)
    requires sel.Valid() && 0 <= focus
    requires page * PerPage + focus >= |items| || focus >= PerPage
    ensures SelectFocused(items, sel, page, focus) == sel
  {
  }

  /** A filled slot toggles exactly its own ingredient and leaves the rest alone. */
  lemma FilledSlotTogglesItsIngredient(items: seq<Ingredient>, sel: Amounts, page: nat, focus: int, other: string)
    requires sel.Valid() && 0 <= focus < PerPage && page * PerPage + focus < |items|
    requires other != items[page * PerPage + focus].name
    ensures var r := SelectFocused(items, sel, page, focus);
      (other in r.items <==> other in sel.items) && (other in r.items ==> r.items[other] == sel.items[other])
  {
  }

  /** The keys `on_key` reacts to; every other key is ignored. */
  predicate HandledKey(key: string) {
    || (|key| == 1 && '1' <= key[0] <= '6')
    || key in ["a", "left", "d", "right", "c", "enter", "up", "down"]
  }

  class KeyboardIngredientDisplay {
    /** `cocktail_system.get_available_ingredients()`, which no handler changes. */
    const items: seq<Ingredient>
    var selected: Amounts
    var page: nat
    var focus: int

    ghost predicate Valid()
      reads this
    {
      && selected.Valid()
      && OnFifteenGrid(selected)
      && PageInRange(page, |items|, PerPage)
      && 0 <= focus < PerPage
    }

    constructor (items: seq<Ingredient>)
      ensures Valid()
      ensures this.items == items && selected == Empty() && page == 0 && focus == 0
    {
      this.items := items;
      selected := Empty();
      page := 0;
      focus := 0;
    }

    /** `_select_ingredient` on the focused slot. */
    method Select()
      requires Valid()
      modifies this
      ensures Valid()
      ensures selected == SelectFocused(items, old(selected), page, focus)
      ensures page == old(page) && focus == old(focus)
    {
      match FocusedIngredient(items, page, focus)
      case Some(ingredient) =>
        ToggleFifteenStaysOnGrid(selected, ingredient.name);
        selected := Toggle(selected, ingredient.name, Step);
      case None =>
    }

    /** `prev`: one page back, focus reset, when not on the first page. */
    method Prev()
      requires Valid()
      modifies this
      ensures Valid()
      ensures page == PrevPage(old(page))
      ensures focus == if old(page) > 0 then 0 else old(focus)
      ensures selected == old(selected)
    {
      if page > 0 {
        page := page - 1;
        focus := 0;
      }
    }

    /** `next`: one page on, focus reset, when not on the last page. */
    method Next()
      requires Valid()
      modifies this
      ensures Valid()
      ensures page == NextPage(old(page), |items|, PerPage)
      ensures focus == if page != old(page) then 0 else old(focus)
      ensures selected == old(selected)
    {
      if page < PageCount(|items|, PerPage) - 1 {
        page := page + 1;
        focus := 0;
      }
    }

    /** `clear`: the selection becomes empty. */
    method Clear()
      requires Valid()
      modifies this
      ensures Valid()
      ensures selected == Empty() && page == old(page) && focus == old(focus)
    {
      selected := Empty();
    }

    /** `start`: the selection is posted only when it is non-empty. */
    method Start() returns (posted: Option<Amounts>)
      requires Valid()
      ensures posted.Some? <==> selected.keys != []
      ensures posted.Some? ==> posted.value == selected
    {
      posted := if selected.keys != [] then Some(selected) else None;
    }

    /** `on_button_pressed` */
    method Press(button: Button) returns (posted: Option<Amounts>)
      requires Valid()
      requires button.IngredientButton? ==> 0 <= button.slot < PerPage
      modifies this
      ensures Valid()
      ensures posted.Some? ==> button == StartButton && posted.value == selected && selected.keys != []
      ensures button == StartButton ==> (posted.Some? <==> old(selected).keys != [])
      ensures button.IngredientButton? ==>
        focus == button.slot && page == old(page) && selected == SelectFocused(items, old(selected), page, focus)
      ensures button == PrevButton ==>
        page == PrevPage(old(page)) && focus == (if page != old(page) then 0 else old(focus)) && selected == old(selected)
      ensures button == NextButton ==>
        page == NextPage(old(page), |items|, PerPage) && focus == (if page != old(page) then 0 else old(focus)) && selected == old(selected)
      ensures button == ClearButton ==> selected == Empty() && page == old(page) && focus == old(focus)
      ensures button == StartButton ==> selected == old(selected) && page == old(page) && focus == old(focus)
    {
      posted := None;
      match button
      case PrevButton => Prev();
      case NextButton => Next();
      case IngredientButton(slot) =>
        focus := slot;
        Select();
      case ClearButton => Clear();
      case StartButton => posted := Start();
    }

    /** `on_key`: digits 1-6 focus and select a slot, a/d and the arrows move, c clears, enter starts. */
    method OnKey(key: string) returns (posted: Option<Amounts>)
      requires Valid()
      modifies this
      ensures Valid()
      ensures posted.Some? ==> key == "enter" && posted.value == selected && selected.keys != []
      ensures key == "enter" ==> (posted.Some? <==> old(selected).keys != [])
      ensures |key| == 1 && '1' <= key[0] <= '6' ==>
        focus == key[0] as int - '1' as int && page == old(page) && selected == SelectFocused(items, old(selected), page, focus)
      ensures key == "a" || key == "left" ==>
        page == PrevPage(old(page)) && focus == (if page != old(page) then 0 else old(focus)) && selected == old(selected)
      ensures key == "d" || key == "right" ==>
        page == NextPage(old(page), |items|, PerPage) && focus == (if page != old(page) then 0 else old(focus)) && selected == old(selected)
      ensures key == "c" ==> selected == Empty() && page == old(page) && focus == old(focus)
      ensures key == "enter" ==> selected == old(selected) && page == old(page) && focus == old(focus)
      ensures key == "up" ==> focus == FocusUp(old(focus)) && page == old(page) && selected == old(selected)
      ensures key == "down" ==>
        focus == FocusDown(old(focus), |PageSlice(items, page, PerPage)|) && page == old(page) && selected == old(selected)
      ensures !HandledKey(key) ==> posted.None? && selected == old(selected) && page == old(page) && focus == old(focus)
    {
      posted := None;
      if |key| == 1 && '1' <= key[0] <= '6' {
        focus := key[0] as int - '1' as int;
        Select();
      } else if key == "a" || key == "left" {
        Prev();
      } else if key == "d" || key == "right" {
        Next();
      } else if key == "c" {
        Clear();
      } else if key == "enter" {
        posted := Start();
      } else if key == "up" {
        focus := FocusUp(focus);
      } else if key == "down" {
        focus := FocusDown(focus, |PageSlice(items, page, PerPage)|);
      }
    }
  }
}
