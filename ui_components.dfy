/**
 * The stateful parts of the main game screen's widgets: the grid picker's
 * 10 ml toggle, the bartender's animation frame counter, the mixing
 * animation's frame choice, and the view switcher.
 */
module UiComponents {
  import opened Wrappers
  import opened Dicts
  import opened Selection

  const PickerStep: int := 10
  const FrameCount: int := 6

  /** `IngredientSelector`: a card per ingredient; clicking a card toggles it by 10 ml. */
  class IngredientSelector {
    var selected: Amounts

    ghost predicate Valid()
      reads this
    {
      selected.Valid() && AmountsWithin(selected, FirstPick, Ceiling)
    }

    constructor ()
      ensures Valid() && selected == Empty()
    {
      selected := Empty();
    }

    /** `_toggle_ingredient` */
    method ToggleIngredient(name: string)
      requires Valid()
      modifies this
      ensures Valid()
      ensures selected == Toggle(old(selected), name, PickerStep)
    {
      ToggleStaysWithin(selected, name, PickerStep);
      selected := Toggle(selected, name, PickerStep);
    }

    /** `clear-selection` */
    method Clear()
      requires Valid()
      modifies this
      ensures Valid() && selected == Empty()
    {
      selected := Empty();
    }

    /** `start-mixing` posts a copy of the selection, empty or not. */
    method Start() returns (posted: Amounts)
      requires Valid()
      ensures posted == selected
    {
      posted := selected;
    }
  }

  /** `CharacterDisplay`: the bartender's mood and animation frame. */
  class CharacterDisplay {
    var mood: string
    var frame: int

    ghost predicate Valid()
      reads this
    {
      0 <= frame < FrameCount
    }

    constructor ()
      ensures Valid() && mood == "happy" && frame == 0
    {
      mood := "happy";
      frame := 0;
    }

    /** `animate_working`: working mood, next frame of six. */
    method AnimateWorking()
      requires Valid()
      modifies this
      ensures Valid()
      ensures mood == "working"
      ensures frame == if old(frame) == FrameCount - 1 then 0 else old(frame) + 1
    {
      mood := "working";
      frame := (frame + 1) % FrameCount;
    }
  }

  /** The seven frames of the mixing animation, in order. */
  const MixingFrames: seq<string> := [
    "🧊\n冰块准备中...",
    "🥃🧊\n倒入基酒...",
    "🥃🍋🧊\n添加果汁...",
    "🥃🍋🍯🧊\n加入糖浆...",
    "🌪️ 🥄 🌪️\n搅拌中...",
    "🍸🌿\n装饰中...",
    "🍸✨\n调制完成！"
  ]

  /**
   * `frames[min(step, len(frames) - 1)]`: the index Python uses, counting
   * from the end for a negative step.
   */
  function FrameIndex(step: int): (i: int)
    requires step >= -|MixingFrames|
    ensures 0 <= i < |MixingFrames|
    ensures 0 <= step < |MixingFrames| ==> i == step
    ensures step >= |MixingFrames| ==> i == |MixingFrames| - 1
    ensures step < 0 ==> i == |MixingFrames| + step
  {
    var k := if step < |MixingFrames| - 1 then step else |MixingFrames| - 1;
    if k < 0 then |MixingFrames| + k else k
  }

  /** `_get_mixing_frame(step)` */
  function MixingFrame(step: int): (f: string)
    requires step >= -|MixingFrames|
    ensures f in MixingFrames
    ensures step >= |MixingFrames| - 1 ==> f == MixingFrames[|MixingFrames| - 1]
  {
    MixingFrames[FrameIndex(step)]
  }

  /** The four views of the game screen, in the order `_show_view` hides them. */
  datatype View = IngredientsView | RecipesView | MixingView | FreeMixingView {
    function Index(): (i: nat)
      ensures i < 4
    {
      match this
      case IngredientsView => 0
      case RecipesView => 1
      case MixingView => 2
      case FreeMixingView => 3
    }
  }

  /** `GameScreen`: which view is current, which is displayed, which nav button is primary. */
  class GameScreen {
    var current: View
    /** `displayed[v.Index()]` is the `display` flag of view `v`. */
    const displayed: array<bool>
    /** `primary[v.Index()]` holds when `nav-v` has the primary variant. */
    const primary: array<bool>

    ghost predicate Valid()
      reads this
    {
      displayed.Length == 4 && primary.Length == 4 && displayed != primary
    }

    /** Before mounting every view is displayed and only `nav-ingredients` is primary. */
    constructor ()
      ensures Valid() && fresh(displayed) && fresh(primary)
      ensures current == IngredientsView
      ensures forall i :: 0 <= i < 4 ==> displayed[i] && primary[i] == (i == 0)
    {
      current := IngredientsView;
      displayed := new bool[4](_ => true);
      primary := new bool[4](i => i == 0);
    }

    /** `_show_view(v)`: hide every view, show `v`, demote every nav button, promote `nav-v`. */
    method ShowView(v: View)
      requires Valid()
      modifies this, displayed, primary
      ensures Valid()
      ensures current == v
      ensures forall i :: 0 <= i < 4 ==> displayed[i] == (i == v.Index())
      ensures forall i :: 0 <= i < 4 ==> primary[i] == (i == v.Index())
    {
      current := v;
      var i := 0;
      while i < 4
        invariant 0 <= i <= 4 && current == v
        invariant forall j :: 0 <= j < i ==> !displayed[j]
      {
        displayed[i] := false;
        i := i + 1;
      }
      displayed[v.Index()] := true;
      i := 0;
      while i < 4
        invariant 0 <= i <= 4 && current == v
        invariant forall j :: 0 <= j < i ==> !primary[j]
        invariant forall j :: 0 <= j < 4 ==> displayed[j] == (j == v.Index())
      {
        primary[i] := false;
        i := i + 1;
      }
      primary[v.Index()] := true;
    }
  }

  /** After any view switch exactly one view is displayed. */
  lemma ExactlyOneDisplayed(flags: seq<bool>, v: View)
    requires |flags| == 4 && forall i :: 0 <= i < 4 ==> flags[i] == (i == v.Index())
    ensures forall w: View :: flags[w.Index()] <==> w == v
  {
    forall w: View ensures flags[w.Index()] <==> w == v {
      if w != v {
        assert w.Index() != v.Index();
      }
    }
  }
}
