/**
 * The rules every ingredient picker shares: adding millilitres to a
 * selection, the pick-again toggle, and splitting the ingredient list into
 * pages.  A selection is an ordered dict from ingredient name to ml.
 */
module Selection {
  import opened Dicts

  type Amounts = Dict<string, int>

  /** The amount a first pick sets. */
  const FirstPick: int := 30
  /** A toggle that would go above this removes the ingredient instead. */
  const Ceiling: int := 200

  /** `sel[name] += amount` when the name is present, `sel[name] = amount` otherwise. */
  function Accumulate(sel: Amounts, name: string, amount: int): (r: Amounts)
    requires sel.Valid()
    ensures r.Valid()
    ensures name in r.items && r.items[name] == sel.Get(name, 0) + amount
    ensures forall k :: k != name ==> (k in r.items <==> k in sel.items) && (k in sel.items ==> r.items[k] == sel.items[k])
    ensures r.keys == if name in sel.items then sel.keys else sel.keys + [name]
  {
    sel.Put(name, sel.Get(name, 0) + amount)
  }

  /** Every amount in the selection is positive. */
  ghost predicate AllPositive(sel: Amounts) {
    forall k :: k in sel.items ==> sel.items[k] > 0
  }

  /** Adding positive amounts keeps every amount positive. */
  lemma AccumulateKeepsPositive(sel: Amounts, name: string, amount: int)
    requires sel.Valid() && AllPositive(sel) && amount > 0
    ensures AllPositive(Accumulate(sel, name, amount))
  {
  }

  /** Adding `a` and then `b` to one ingredient is adding `a + b` once. */
  lemma AccumulateTwice(sel: Amounts, name: string, a: int, b: int)
    requires sel.Valid()
    ensures Accumulate(Accumulate(sel, name, a), name, b) == Accumulate(sel, name, a + b)
  {
    var x := sel.Get(name, 0) + a;
    var keys := if name in sel.items then sel.keys else sel.keys + [name];
    var once := Dict(keys, sel.items[name := x]);
    assert Accumulate(sel, name, a) == once;
    assert Accumulate(once, name, b) == Dict(keys, sel.items[name := x][name := x + b]);
    assert sel.items[name := x][name := x + b] == sel.items[name := x + b];
  }

  /** The total volume of the ingredients `names`. */
  function Volume(sel: Amounts, names: seq<string>): (v: int)
    requires forall i :: 0 <= i < |names| ==> names[i] in sel.items
    ensures AllPositive(sel) && names != [] ==> v > 0
  {
    if names == [] then 0 else Volume(sel, names[..|names| - 1]) + sel.items[names[|names| - 1]]
  }

  /** The total volume of a selection, the sum of its amounts. */
  function Total(sel: Amounts): (v: int)
    requires sel.Valid()
    ensures AllPositive(sel) && sel.keys != [] ==> v > 0
  {
    Volume(sel, sel.keys)
  }

  /** Adding `amount` of one ingredient adds exactly `amount` to the total volume. */
  lemma AccumulateAddsVolume(sel: Amounts, name: string, amount: int)
    requires sel.Valid()
    ensures Total(Accumulate(sel, name, amount)) == Total(sel) + amount
  {
    var r := Accumulate(sel, name, amount);
    if name in sel.items {
      VolumeOfUpdate(sel, r, name, sel.keys);
    } else {
      VolumeSame(sel, r, sel.keys);
      assert r.keys[..|r.keys| - 1] == sel.keys;
    }
  }

  /** Changing one amount changes the volume of any list naming it once by the difference. */
  lemma {:induction false} VolumeOfUpdate(s1: Amounts, s2: Amounts, name: string, names: seq<string>)
    requires forall i :: 0 <= i < |names| ==> names[i] in s1.items && names[i] in s2.items
    requires forall i, j :: 0 <= i < j < |names| ==> names[i] != names[j]
    requires name in names
    requires forall k :: k != name && k in s1.items ==> k in s2.items && s2.items[k] == s1.items[k]
    ensures Volume(s2, names) == Volume(s1, names) + s2.items[name] - s1.items[name]
  {
    var init, last := names[..|names| - 1], names[|names| - 1];
    if last == name {
      assert name !in init;
      VolumeSame(s1, s2, init);
    } else {
      assert name in init by {
        var i :| 0 <= i < |names| && names[i] == name;
        assert i < |names| - 1;
        assert init[i] == name;
      }
      VolumeOfUpdate(s1, s2, name, init);
    }
  }

  /** Two selections that agree on `names` give them the same volume. */
  lemma {:induction false} VolumeSame(s1: Amounts, s2: Amounts, names: seq<string>)
    requires forall i :: 0 <= i < |names| ==> names[i] in s1.items && names[i] in s2.items && s1.items[names[i]] == s2.items[names[i]]
    ensures Volume(s1, names) == Volume(s2, names)
  {
    if names != [] {
      VolumeSame(s1, s2, names[..|names| - 1]);
    }
  }

  /**
   * Picking an ingredient: a first pick sets 30 ml, a repeat pick adds
   * `step` ml, and a pick that would pass 200 ml removes the ingredient.
   */
  function Toggle(sel: Amounts, name: string, step: int): (r: Amounts)
    requires sel.Valid()
    ensures r.Valid()
    ensures name !in sel.items ==> name in r.items && r.items[name] == FirstPick
    ensures name in sel.items && sel.items[name] + step > Ceiling ==> name !in r.items
    ensures name in sel.items && sel.items[name] + step <= Ceiling ==> name in r.items && r.items[name] == sel.items[name] + step
    ensures forall k :: k != name ==> (k in r.items <==> k in sel.items) && (k in r.items ==> r.items[k] == sel.items[k])
  {
    if name in sel.items then
      var amount := sel.items[name] + step;
      if amount > Ceiling then sel.Remove(name) else sel.Put(name, amount)
    else
      sel.Put(name, FirstPick)
  }

  /** Every stored amount lies in `[lo, hi]`. */
  ghost predicate AmountsWithin(sel: Amounts, lo: int, hi: int) {
    forall k :: k in sel.items ==> lo <= sel.items[k] <= hi
  }

  /** With a non-negative step, stored amounts stay between 30 and 200. */
  lemma ToggleStaysWithin(sel: Amounts, name: string, step: int)
    requires sel.Valid() && step >= 0
    requires AmountsWithin(sel, FirstPick, Ceiling)
    ensures AmountsWithin(Toggle(sel, name, step), FirstPick, Ceiling)
  {
  }

  /** An amount a 15 ml picker can reach: 30, 45, ..., 195. */
  predicate OnGrid(a: int) {
    FirstPick <= a <= 195 && (a - FirstPick) % 15 == 0
  }

  ghost predicate OnFifteenGrid(sel: Amounts) {
    forall k :: k in sel.items ==> OnGrid(sel.items[k])
  }

  /** With a 15 ml step the stored amounts stay on the grid 30, 45, ..., 195. */
  lemma ToggleFifteenStaysOnGrid(sel: Amounts, name: string)
    requires sel.Valid() && OnFifteenGrid(sel)
    ensures OnFifteenGrid(Toggle(sel, name, 15))
  {
    var r := Toggle(sel, name, 15);
    forall k | k in r.items
      ensures OnGrid(r.items[k])
    {
      if k != name {
        assert r.items[k] == sel.items[k];
      } else if name in sel.items {
        GridStep(sel.items[name]);
      }
    }
  }

  /** One more step of 15 stays on the grid as long as it does not pass 200. */
  lemma GridStep(a: int)
    requires OnGrid(a) && a + 15 <= Ceiling
    ensures OnGrid(a + 15)
  {
    assert (a + 15 - FirstPick) == (a - FirstPick) + 15;
  }

  /** Starting from nothing, the `n`-th pick of one ingredient with step `step`. */
  function Picks(sel: Amounts, name: string, step: int, n: nat): (r: Amounts)
    requires sel.Valid()
    ensures r.Valid()
  {
    if n == 0 then sel else Toggle(Picks(sel, name, step, n - 1), name, step)
  }

  /**
   * Picking an absent ingredient with a 15 ml step stores 30, 45, ..., 195
   * for the first twelve picks, and the thirteenth pick removes it again.
   */
  lemma {:induction false} FifteenCycle(sel: Amounts, name: string, n: nat)
    requires sel.Valid() && name !in sel.items && n <= 13
    ensures 1 <= n <= 12 ==> name in Picks(sel, name, 15, n).items && Picks(sel, name, 15, n).items[name] == FirstPick + 15 * (n - 1)
    ensures n == 13 ==> name !in Picks(sel, name, 15, n).items
  {
    if n > 1 {
      FifteenCycle(sel, name, n - 1);
    }
  }

  /** `(n + per - 1) // per`, the number of pages of `n` items. */
  function PageCount(n: nat, per: int): (c: nat)
    requires per > 0
    ensures c * per >= n
    ensures c > 0 ==> (c - 1) * per < n
  {
    (n + per - 1) / per
  }

  /** `xs[page * per : page * per + per]`, with Python's clamping of slice bounds. */
  function PageSlice<T>(xs: seq<T>, page: nat, per: int): (s: seq<T>)
    requires per > 0
    ensures |s| <= per
    ensures forall i :: 0 <= i < |s| ==> page * per + i < |xs| && s[i] == xs[page * per + i]
    ensures page * per < |xs| ==> |s| == if page * per + per <= |xs| then per else |xs| - page * per
    ensures page * per >= |xs| ==> s == []
  {
    var start := page * per;
    if start >= |xs| then [] else xs[start..if start + per <= |xs| then start + per else |xs|]
  }

  /** The pages before `page`, laid end to end. */
  function Pages<T>(xs: seq<T>, per: int, page: nat): seq<T>
    requires per > 0
  {
    if page == 0 then [] else Pages(xs, per, page - 1) + PageSlice(xs, page - 1, per)
  }

  /** The pages, laid end to end, are the ingredient list itself. */
  lemma PagesCoverList<T>(xs: seq<T>, per: int)
    requires per > 0
    ensures Pages(xs, per, PageCount(|xs|, per)) == xs
  {
    var c := PageCount(|xs|, per);
    PagesPrefix(xs, per, c);
    assert (if c * per <= |xs| then c * per else |xs|) == |xs|;
  }

  lemma {:induction false} PagesPrefix<T>(xs: seq<T>, per: int, page: nat)
    requires per > 0
    ensures Pages(xs, per, page) == xs[..if page * per <= |xs| then page * per else |xs|]
  {
    if page > 0 {
      PagesPrefix(xs, per, page - 1);
      var start := (page - 1) * per;
      NextPageStart(page, per);
      var slice := PageSlice(xs, page - 1, per);
      if start < |xs| {
        var end := if start + per <= |xs| then start + per else |xs|;
        assert slice == xs[start..end];
        assert xs[..start] + xs[start..end] == xs[..end];
      } else {
        assert slice == [];
      }
    }
  }

  /** Page `page` starts one page length after page `page - 1`. */
  lemma NextPageStart(page: nat, per: int)
    requires page > 0
    ensures page * per == (page - 1) * per + per
  {
  }

  /** A page index that `prev`/`next` can reach: the first page, or one that has items. */
  ghost predicate PageInRange(page: nat, n: nat, per: int)
    requires per > 0
  {
    page == 0 || page < PageCount(n, per)
  }

  /** The page after `prev`: one back unless already on the first. */
  function PrevPage(page: nat): (p: nat)
    ensures p <= page
    ensures page > 0 ==> p == page - 1
  {
    if page > 0 then page - 1 else page
  }

  /** The page after `next`: one on unless already on the last. */
  function NextPage(page: nat, n: nat, per: int): (p: nat)
    requires per > 0
    ensures p >= page
    ensures PageInRange(page, n, per) ==> PageInRange(p, n, per)
    ensures p == page || p == page + 1
    ensures p == page + 1 <==> page + 1 < PageCount(n, per)
  {
    if page < PageCount(n, per) - 1 then page + 1 else page
  }
}
