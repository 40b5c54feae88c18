/**
 * The in-memory tables of the rating database. A Python `dict` remembers the
 * order in which its keys were first inserted, and `values()` walks it in that
 * order; `Dict` keeps that order next to the map.
 */
module Dicts {

  datatype Option<+T> = None | Some(value: T)

  datatype Dict<V> = Dict(items: map<string, V>, order: seq<string>) {

    /** Every key appears exactly once in the insertion order. */
    ghost predicate Valid() {
      && (forall i, j :: 0 <= i < j < |order| ==> order[i] != order[j])
      && (forall k :: k in items <==> k in order)
    }

    /** `d.values()`: the values in insertion order. */
    function Values(): (vs: seq<V>)
      requires Valid()
      ensures |vs| == |order|
      ensures forall i :: 0 <= i < |order| ==> vs[i] == items[order[i]]
    {
      seq(|order|, i requires 0 <= i < |order| => items[order[i]])
    }

    /** `d[k] = v`: an existing key keeps its place, a new key goes last. */
    function Put(k: string, v: V): (d: Dict<V>)
      requires Valid()
      ensures d.Valid()
      ensures d.items == items[k := v]
      ensures k in items ==> d.order == order && d.items.Keys == items.Keys
      ensures k !in items ==> d.order == order + [k]
    {
      Dict(items[k := v], if k in items then order else order + [k])
    }
  }

  /** `table` keeps every entry of `base`, unchanged, with `base`'s keys first and in their order. */
  ghost predicate Extends<V>(table: Dict<V>, base: Dict<V>) {
    && table.Valid()
    && |base.order| <= |table.order|
    && table.order[..|base.order|] == base.order
    && (forall k :: k in base.items ==> k in table.items && table.items[k] == base.items[k])
  }
}
