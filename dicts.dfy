/** Option, and Python's insertion-ordered dictionary as a value. */
module Wrappers {

  datatype Option<+T> = None | Some(value: T) {
    function GetOr(default: T): T {
      match this
      case Some(v) => v
      case None => default
    }
  }
}

/**
 * A Python `dict` whose iteration order matters: `keys` is the insertion
 * order and `items` the key/value association.  Assigning to a key that is
 * already present keeps its position (`d[k] = v`), a new key goes to the end,
 * and `del d[k]` drops the key from the order.
 */
module Dicts {

  datatype Dict<K(!new), V> = Dict(keys: seq<K>, items: map<K, V>) {

    /** The keys are pairwise distinct and are exactly the mapped ones. */
    ghost predicate Valid() {
      && (forall i, j :: 0 <= i < j < |keys| ==> keys[i] != keys[j])
      && (forall k :: k in items <==> k in keys)
    }

    /** `d.get(k, default)` */
    function Get(k: K, default: V): V {
      if k in items then items[k] else default
    }

    /** `d[k] = v` */
    function Put(k: K, v: V): (d: Dict<K, V>)
      ensures Valid() ==> d.Valid()
      ensures d.items == items[k := v]
      ensures k in items ==> d.keys == keys
      ensures k !in items ==> d.keys == keys + [k]
    {
      if k in items then Dict(keys, items[k := v]) else Dict(keys + [k], items[k := v])
    }

    /**
     * `del d[k]`: the key leaves both the order and the association; the
     * other keys keep their relative order (see `WithoutAppend`).
     */
    function Remove(k: K): (d: Dict<K, V>)
      requires Valid()
      ensures d.Valid()
      ensures d.keys == Without(keys, k)
      ensures d.items == map j | j in items && j != k :: items[j]
      ensures forall i :: 0 <= i < |d.keys| ==> d.keys[i] in keys
    {
      Dict(Without(keys, k), map j | j in items && j != k :: items[j])
    }

    /** The values in iteration order, as `list(d.values())`. */
    function Values(): (vs: seq<V>)
      requires Valid()
      ensures |vs| == |keys|
      ensures forall i :: 0 <= i < |keys| ==> vs[i] == items[keys[i]]
    {
      seq(|keys|, i requires 0 <= i < |keys| => items[keys[i]])
    }
  }

  /** Assigning a key twice is assigning it the second value. */
  lemma PutTwice<K(!new), V>(d: Dict<K, V>, k: K, v: V, w: V)
    ensures d.Put(k, v).Put(k, w) == d.Put(k, w)
  {
    assert d.items[k := v][k := w] == d.items[k := w];
  }

  function Empty<K(!new), V>(): (d: Dict<K, V>)
    ensures d.Valid() && d.keys == [] && d.items == map[]
  {
    Dict([], map[])
  }

  /**
   * `xs` with every occurrence of `k` dropped, the rest in order: dropping
   * commutes with concatenation (`WithoutAppend`).
   */
  function Without<K(==, !new)>(xs: seq<K>, k: K): (ys: seq<K>)
    ensures forall j :: j in ys <==> j in xs && j != k
    ensures (forall i, j :: 0 <= i < j < |xs| ==> xs[i] != xs[j]) ==> (forall i, j :: 0 <= i < j < |ys| ==> ys[i] != ys[j])
  {
    if xs == [] then []
    else if xs[0] == k then
      assert (forall i, j :: 0 <= i < j < |xs| ==> xs[i] != xs[j]) ==> (forall i, j :: 0 <= i < j < |xs| - 1 ==> xs[1..][i] != xs[1..][j]);
      Without(xs[1..], k)
    else
      var rest := Without(xs[1..], k);
      assert (forall i, j :: 0 <= i < j < |xs| ==> xs[i] != xs[j]) ==>
        (forall i, j :: 0 <= i < j < |xs| - 1 ==> xs[1..][i] != xs[1..][j]) && xs[0] !in xs[1..];
      [xs[0]] + rest
  }

  /** Dropping `k` from `a + b` drops it from each part and keeps the parts in order. */
  lemma {:induction false} WithoutAppend<K(!new)>(a: seq<K>, b: seq<K>, k: K)
    ensures Without(a + b, k) == Without(a, k) + Without(b, k)
  {
    if a == [] {
      assert a + b == b;
    } else {
      assert (a + b)[1..] == a[1..] + b;
      WithoutAppend(a[1..], b, k);
    }
  }
}
