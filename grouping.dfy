/**
 * The order-preserving group-by the game's reference panels use:
 *
 *   for x in xs:
 *       if key(x) not in groups: groups[key(x)] = []
 *       groups[key(x)].append(x)
 *
 * Groups appear in the order their key first occurs, and each group keeps
 * the input order.
 */
module Grouping {
  import opened Dicts
  import opened Domain

  /** The items of `xs` whose key is `k`, in input order. */
  function Filter<T>(xs: seq<T>, key: T -> string, k: string): (ys: seq<T>)
    ensures |ys| <= |xs|
    ensures forall y :: y in ys ==> y in xs && key(y) == k
  {
    if xs == [] then []
    else Filter(xs[..|xs| - 1], key, k) + if key(xs[|xs| - 1]) == k then [xs[|xs| - 1]] else []
  }

  /** The keys of `xs`, each kept at its first occurrence. */
  function FirstOccurrences(ks: seq<string>): (ds: seq<string>)
    ensures forall k :: k in ds <==> k in ks
    ensures forall i, j :: 0 <= i < j < |ds| ==> ds[i] != ds[j]
  {
    if ks == [] then []
    else
      var ds := FirstOccurrences(ks[..|ks| - 1]);
      assert forall k :: k in ks <==> k in ks[..|ks| - 1] || k == ks[|ks| - 1];
      if ks[|ks| - 1] in ds then ds else ds + [ks[|ks| - 1]]
  }

  /** `[key(x) for x in xs]` */
  function KeysOf<T>(xs: seq<T>, key: T -> string): (ks: seq<string>)
    ensures |ks| == |xs| && forall i :: 0 <= i < |xs| ==> ks[i] == key(xs[i])
  {
    seq(|xs|, i requires 0 <= i < |xs| => key(xs[i]))
  }

  /** The dict the loop builds, item by item. */
  function Groups<T>(xs: seq<T>, key: T -> string): (g: Dict<string, seq<T>>)
    ensures g.Valid()
  {
    if xs == [] then Empty()
    else
      var g := Groups(xs[..|xs| - 1], key);
      var k := key(xs[|xs| - 1]);
      g.Put(k, g.Get(k, []) + [xs[|xs| - 1]])
  }

  /** Each group holds exactly the items with its key, in input order, and no group is empty. */
  lemma {:induction false} GroupsAreFilters<T>(xs: seq<T>, key: T -> string, k: string)
    ensures k in Groups(xs, key).items <==> Filter(xs, key, k) != []
    ensures Groups(xs, key).Get(k, []) == Filter(xs, key, k)
  {
    if xs != [] {
      GroupsAreFilters(xs[..|xs| - 1], key, k);
    }
  }

  /** Groups come in the order their key first occurs. */
  lemma {:induction false} GroupOrder<T>(xs: seq<T>, key: T -> string)
    ensures Groups(xs, key).keys == FirstOccurrences(KeysOf(xs, key))
  {
    if xs != [] {
      var init := xs[..|xs| - 1];
      GroupOrder(init, key);
      assert KeysOf(xs, key)[..|xs| - 1] == KeysOf(init, key);
    }
  }

  /** An item occurs in its own group as often as in the input, and in no other group. */
  lemma {:induction false} EachItemInItsGroup<T>(xs: seq<T>, key: T -> string, x: T, k: string)
    ensures multiset(Filter(xs, key, k))[x] == if key(x) == k then multiset(xs)[x] else 0
  {
    if xs != [] {
      var init := xs[..|xs| - 1];
      EachItemInItsGroup(init, key, x, k);
      assert xs == init + [xs[|xs| - 1]];
    }
  }

  /** An item sits in the group of its own key and in no other. */
  lemma ItemInExactlyOneGroup<T>(xs: seq<T>, key: T -> string, x: T, k: string)
    ensures x in Groups(xs, key).Get(k, []) <==> x in xs && key(x) == k
  {
    GroupsAreFilters(xs, key, k);
    EachItemInItsGroup(xs, key, x, k);
    assert x in Filter(xs, key, k) <==> multiset(Filter(xs, key, k))[x] > 0;
    assert x in xs <==> multiset(xs)[x] > 0;
  }

  /** One more item appends it to its key's group. */
  lemma GroupsStep<T>(xs: seq<T>, key: T -> string, i: nat)
    requires i < |xs|
    ensures Groups(xs[..i + 1], key) ==
      Groups(xs[..i], key).Put(key(xs[i]), Groups(xs[..i], key).Get(key(xs[i]), []) + [xs[i]])
  {
    assert xs[..i + 1][..i] == xs[..i];
  }

  /** One round of the loop: open the key's group if it is new, then append the item. */
  method AddToGroup<T>(groups: Dict<string, seq<T>>, k: string, x: T) returns (r: Dict<string, seq<T>>)
    ensures r == groups.Put(k, groups.Get(k, []) + [x])
  {
    r := groups;
    if k !in r.items {
      PutTwice(r, k, [], [x]);
      r := r.Put(k, []);
    }
    r := r.Put(k, r.items[k] + [x]);
  }

  /** The loop itself. */
  method GroupBy<T>(xs: seq<T>, key: T -> string) returns (groups: Dict<string, seq<T>>)
    ensures groups == Groups(xs, key)
  {
    groups := Empty();
    var i := 0;
    while i < |xs|
      invariant 0 <= i <= |xs|
      invariant groups == Groups(xs[..i], key)
    {
      GroupsStep(xs, key, i);
      groups := AddToGroup(groups, key(xs[i]), xs[i]);
      i := i + 1;
    }
    assert xs[..i] == xs;
  }

  /** `ingredient.type.value`, the key the ingredient list is grouped by. */
  function TypeLabel(ingredient: Ingredient): string {
    TypeValue(ingredient.kind)
  }

  /**
   * Ingredients grouped by type label, as the free-mixing bench's list and
   * the reference panel's ingredient page do: one group per label in order
   * of first appearance, each holding that type's ingredients in list order.
   */
  method IngredientsByType(items: seq<Ingredient>) returns (groups: Dict<string, seq<Ingredient>>)
    ensures groups.Valid()
    ensures groups.keys == FirstOccurrences(KeysOf(items, TypeLabel))
    ensures forall tag :: groups.Get(tag, []) == Filter(items, TypeLabel, tag)
  {
    groups := GroupBy(items, TypeLabel);
    GroupOrder(items, TypeLabel);
    forall tag ensures groups.Get(tag, []) == Filter(items, TypeLabel, tag) {
      GroupsAreFilters(items, TypeLabel, tag);
    }
  }
}
