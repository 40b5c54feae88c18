/**
 * Ordering helpers shared by both rating engines: the chronological order in
 * which games are replayed, and the configurations ordered by success rate.
 * Both take a table and return a fresh list; the table, a value, is unchanged.
 */
module General {
  import opened Dicts
  import opened Sorting

  /** Python's `<` on `str`: lexicographic by code point, a proper prefix first. */
  predicate StringLess(a: string, b: string) {
    if b == [] then false
    else if a == [] then true
    else if a[0] != b[0] then a[0] < b[0]
    else StringLess(a[1..], b[1..])
  }

  /** Python's `<` on `float`. */
  predicate RealLess(x: real, y: real) {
    x < y
  }

  lemma {:induction false} StringLessIrreflexive(a: string)
    ensures !StringLess(a, a)
  {
    if a != [] {
      StringLessIrreflexive(a[1..]);
    }
  }

  lemma {:induction false} StringLessTransitive(a: string, b: string, c: string)
    requires StringLess(a, b) && StringLess(b, c)
    ensures StringLess(a, c)
  {
    if a != [] && a[0] == b[0] && b[0] == c[0] {
      StringLessTransitive(a[1..], b[1..], c[1..]);
    }
  }

  lemma {:induction false} StringLessTotal(a: string, b: string)
    requires a != b
    ensures StringLess(a, b) || StringLess(b, a)
  {
    if a != [] && b != [] && a[0] == b[0] {
      assert a == [a[0]] + a[1..] && b == [b[0]] + b[1..];
      StringLessTotal(a[1..], b[1..]);
    }
  }

  /** String comparison is a strict total order, so sorting by date is well defined. */
  lemma StringLessIsOrder()
    ensures StrictTotalOrder(StringLess)
  {
    forall a: string ensures !StringLess(a, a) {
      StringLessIrreflexive(a);
    }
    forall a: string, b: string, c: string | StringLess(a, b) && StringLess(b, c) ensures StringLess(a, c) {
      StringLessTransitive(a, b, c);
    }
    forall a: string, b: string | a != b ensures StringLess(a, b) || StringLess(b, a) {
      StringLessTotal(a, b);
    }
  }

  lemma RealLessIsOrder()
    ensures StrictTotalOrder(RealLess)
  {
  }

  /** The games of the table in the order `orderGamesTable` sorts them. */
  function OrderedGames<G>(games: Dict<G>, date: G -> string): seq<G>
    requires games.Valid()
  {
    SortBy(games.Values(), date, StringLess)
  }

  /** What `orderGamesTable` returns: the `ID` field of each game, in date order. */
  function OrderedIds<G>(games: Dict<G>, date: G -> string, id: G -> string): seq<string>
    requires games.Valid()
  {
    Project(OrderedGames(games, date), id)
  }

  /** The loop that appends each of `d.values()` to a new list. */
  method ListOfValues<V>(d: Dict<V>) returns (a: array<V>)
    requires d.Valid()
    ensures fresh(a) && a[..] == d.Values()
  {
    var list: seq<V> := [];
    for i := 0 to |d.order|
      invariant list == d.Values()[..i]
    {
      list := list + [d.items[d.order[i]]];
    }
    a := new V[|list|](i requires 0 <= i < |list| => list[i]);
    assert a[..] == list;
  }

  /**
   * `orderGamesTable`: copies the table's values into a list, sorts the list
   * by `DATE`, then replaces each entry by its `ID`.
   */
  method OrderGamesTable<G>(games: Dict<G>, date: G -> string, id: G -> string) returns (ids: seq<string>)
    requires games.Valid()
    ensures ids == OrderedIds(games, date, id)
  {
    var sorted := ListOfValues(games);
    StringLessIsOrder();
    SortInPlace(sorted, date, StringLess);
    ghost var order := sorted[..];
    ids := [];
    for i := 0 to sorted.Length
      invariant |ids| == i
      invariant forall t :: 0 <= t < i ==> ids[t] == id(order[t])
    {
      ids := ids + [id(sorted[i])];
    }
    assert ids == Project(order, id);
  }

  /**
   * The games come out one per table entry, as a permutation of the table's
   * values, in non-decreasing date order, and games sharing a date keep the
   * table's insertion order.
   */
  lemma OrderedGamesSpec<G>(games: Dict<G>, date: G -> string, d: string)
    requires games.Valid()
    ensures |OrderedGames(games, date)| == |games.order|
    ensures multiset(OrderedGames(games, date)) == multiset(games.Values())
    ensures forall i :: 0 <= i < |games.order| - 1 ==>
              !StringLess(date(OrderedGames(games, date)[i + 1]), date(OrderedGames(games, date)[i]))
    ensures Filter(OrderedGames(games, date), date, d) == Filter(games.Values(), date, d)
  {
    StringLessIsOrder();
    SortByPermutes(games.Values(), date, StringLess);
    SortBySorted(games.Values(), date, StringLess);
    SortByStable(games.Values(), date, StringLess, d);
  }

  /**
   * When every game's `ID` field is its key, the returned IDs are a
   * permutation of the keys, and looking them up gives games in
   * non-decreasing date order.
   */
  lemma OrderedIdsAreKeys<G>(games: Dict<G>, date: G -> string, id: G -> string)
    requires games.Valid()
    requires forall k :: k in games.items ==> id(games.items[k]) == k
    ensures |OrderedIds(games, date, id)| == |games.order|
    ensures multiset(OrderedIds(games, date, id)) == multiset(games.order)
    ensures forall k :: k in OrderedIds(games, date, id) <==> k in games.items
    ensures forall i, j :: 0 <= i < j < |games.order| ==>
              OrderedIds(games, date, id)[i] in games.items && OrderedIds(games, date, id)[j] in games.items &&
              !StringLess(date(games.items[OrderedIds(games, date, id)[j]]), date(games.items[OrderedIds(games, date, id)[i]]))
  {
    var values := games.Values();
    var sorted := OrderedGames(games, date);
    var ids := OrderedIds(games, date, id);
    assert Project(values, id) == games.order;
    SortByPermutesProjection(values, date, StringLess, id);
    SortByPermutes(values, date, StringLess);
    StringLessIsOrder();
    SortBySorted(values, date, StringLess);
    forall i | 0 <= i < |ids| ensures ids[i] in games.items && games.items[ids[i]] == sorted[i] {
      assert sorted[i] in multiset(values);
      var t :| 0 <= t < |values| && values[t] == sorted[i];
      assert games.items[games.order[t]] == sorted[i];
    }
    forall k ensures k in ids <==> k in games.items {
      assert k in ids <==> k in multiset(ids);
      assert k in games.order <==> k in multiset(games.order);
    }
  }

  /**
   * `orderConfigurationsTable`: copies the table's values into a list and
   * sorts it by `SUCCESS_RATE`.
   */
  method OrderConfigurationsTable<C>(configurations: Dict<C>, rate: C -> real) returns (sorted: seq<C>)
    requires configurations.Valid()
    ensures sorted == SortBy(configurations.Values(), rate, RealLess)
  {
    var a := ListOfValues(configurations);
    RealLessIsOrder();
    SortInPlace(a, rate, RealLess);
    sorted := a[..];
  }

  /**
   * The configurations come out as a permutation of the table's values,
   * ascending by success rate, with equal rates in insertion order.
   */
  lemma OrderedConfigurationsSpec<C>(configurations: Dict<C>, rate: C -> real, r: real)
    requires configurations.Valid()
    ensures multiset(SortBy(configurations.Values(), rate, RealLess)) == multiset(configurations.Values())
    ensures SortedBy(SortBy(configurations.Values(), rate, RealLess), rate, RealLess)
    ensures Filter(SortBy(configurations.Values(), rate, RealLess), rate, r) == Filter(configurations.Values(), rate, r)
  {
    RealLessIsOrder();
    SortByPermutes(configurations.Values(), rate, RealLess);
    SortBySorted(configurations.Values(), rate, RealLess);
    SortByStable(configurations.Values(), rate, RealLess, r);
  }
}
