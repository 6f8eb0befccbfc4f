/** Folding items into an insertion-ordered map by key, and what such a map holds. */
module Grouping {

  /** The items with a key, in order. */
  function WithKey<T(!new), K(==, !new)>(items: seq<T>, keyOf: T -> K, key: K): (r: seq<T>)
    ensures forall x :: x in r <==> x in items && keyOf(x) == key
  {
    if items == [] then []
    else
      var before := WithKey(items[..|items| - 1], keyOf, key);
      if keyOf(items[|items| - 1]) == key then before + [items[|items| - 1]] else before
  }

  /** The keys by first appearance. */
  function Keys<T(!new), K(==, !new)>(items: seq<T>, keyOf: T -> K): (r: seq<K>)
    ensures forall x :: x in items ==> keyOf(x) in r
    ensures forall i, j :: 0 <= i < j < |r| ==> r[i] != r[j]
  {
    if items == [] then []
    else
      var before := Keys(items[..|items| - 1], keyOf);
      var key := keyOf(items[|items| - 1]);
      if key in before then before else before + [key]
  }

  lemma {:induction false} KeysAreUsed<T(!new), K(!new)>(items: seq<T>, keyOf: T -> K, key: K)
    requires key in Keys(items, keyOf)
    ensures WithKey(items, keyOf, key) != []
  {
    if items != [] && keyOf(items[|items| - 1]) != key {
      KeysAreUsed(items[..|items| - 1], keyOf, key);
    }
  }

  lemma {:induction false} KeyIsUsed<T(!new), K(!new)>(items: seq<T>, keyOf: T -> K, key: K) returns (h: nat)
    requires key in Keys(items, keyOf)
    ensures h < |items| && keyOf(items[h]) == key
  {
    var n := |items| - 1;
    h := n;
    if keyOf(items[n]) != key {
      h := KeyIsUsed(items[..n], keyOf, key);
    }
  }

  /** A key listed earlier was seen before any item of a key listed later. */
  lemma {:induction false} KeysByFirst<T(!new), K(!new)>(items: seq<T>, keyOf: T -> K, i: nat, j: nat, m: nat) returns (h: nat)
    requires i < j < |Keys(items, keyOf)| && m < |items| && keyOf(items[m]) == Keys(items, keyOf)[j]
    ensures h < m && keyOf(items[h]) == Keys(items, keyOf)[i]
  {
    var n := |items| - 1;
    var before := Keys(items[..n], keyOf);
    if m < n {
      assert items[..n][m] == items[m] && keyOf(items[m]) in before;
      h := KeysByFirst(items[..n], keyOf, i, j, m);
    } else {
      h := KeyIsUsed(items[..n], keyOf, before[i]);
    }
  }

  /** The fold of a non-empty list, started by its first item. */
  function Fold<T, V>(items: seq<T>, admit: T -> V, combine: (V, T) -> V): V
    requires items != []
  {
    if |items| == 1 then admit(items[0]) else combine(Fold(items[..|items| - 1], admit, combine), items[|items| - 1])
  }

  /** For every key seen, in order of first appearance, the fold of that key's items alone. */
  ghost predicate Folded<T(!new), K(!new), V(!new)>(
      keys: seq<K>, table: map<K, V>, seen: seq<T>, keyOf: T -> K, admit: T -> V, combine: (V, T) -> V) {
    && keys == Keys(seen, keyOf)
    && (forall k :: k in table <==> k in keys)
    && forall k :: k in table ==> EntryOf(table[k], seen, keyOf, admit, combine, k)
  }

  ghost predicate EntryOf<T(!new), K(!new), V(!new)>(
      entry: V, seen: seq<T>, keyOf: T -> K, admit: T -> V, combine: (V, T) -> V, key: K) {
    var items := WithKey(seen, keyOf, key);
    items != [] && entry == Fold(items, admit, combine)
  }

  lemma WithKeyNext<T(!new), K(!new)>(seen: seq<T>, item: T, keyOf: T -> K, key: K)
    ensures WithKey(seen + [item], keyOf, key) == WithKey(seen, keyOf, key) + if keyOf(item) == key then [item] else []
  {
    assert (seen + [item])[..|seen|] == seen;
  }

  lemma FoldNext<T, V>(items: seq<T>, item: T, admit: T -> V, combine: (V, T) -> V)
    ensures Fold(items + [item], admit, combine) ==
      if items == [] then admit(item) else combine(Fold(items, admit, combine), item)
  {
    assert (items + [item])[..|items|] == items;
  }

  lemma KeysNext<T(!new), K(!new)>(seen: seq<T>, item: T, keyOf: T -> K)
    ensures
      var keys := Keys(seen, keyOf);
      Keys(seen + [item], keyOf) == if keyOf(item) in keys then keys else keys + [keyOf(item)]
  {
    assert (seen + [item])[..|seen|] == seen;
  }

  lemma {:induction false} NoneWithNewKey<T(!new), K(!new)>(seen: seq<T>, keyOf: T -> K, key: K)
    requires key !in Keys(seen, keyOf)
    ensures WithKey(seen, keyOf, key) == []
  {
    if seen != [] {
      NoneWithNewKey(seen[..|seen| - 1], keyOf, key);
    }
  }

  /** What one more item makes of the entry of its own key. */
  lemma EntryNext<T(!new), K(!new), V(!new)>(
      table: map<K, V>, seen: seq<T>, item: T, keyOf: T -> K, admit: T -> V, combine: (V, T) -> V)
    requires keyOf(item) in table ==> EntryOf(table[keyOf(item)], seen, keyOf, admit, combine, keyOf(item))
    requires keyOf(item) !in table ==> keyOf(item) !in Keys(seen, keyOf)
    ensures EntryOf(if keyOf(item) in table then combine(table[keyOf(item)], item) else admit(item),
                    seen + [item], keyOf, admit, combine, keyOf(item))
  {
    var key := keyOf(item);
    WithKeyNext(seen, item, keyOf, key);
    FoldNext(WithKey(seen, keyOf, key), item, admit, combine);
    if key !in table {
      NoneWithNewKey(seen, keyOf, key);
    }
  }

  lemma EntryStays<T(!new), K(!new), V(!new)>(
      entry: V, seen: seq<T>, item: T, keyOf: T -> K, admit: T -> V, combine: (V, T) -> V, key: K)
    requires EntryOf(entry, seen, keyOf, admit, combine, key) && keyOf(item) != key
    ensures EntryOf(entry, seen + [item], keyOf, admit, combine, key)
  {
    WithKeyNext(seen, item, keyOf, key);
    assert WithKey(seen, keyOf, key) + [] == WithKey(seen, keyOf, key);
  }

  /** One more item: its key's entry absorbs it, or starts with it, and the others stay. */
  lemma FoldOne<T(!new), K(!new), V(!new)>(
      keys: seq<K>, table: map<K, V>, seen: seq<T>, item: T, keyOf: T -> K, admit: T -> V, combine: (V, T) -> V)
    requires Folded(keys, table, seen, keyOf, admit, combine)
    ensures Folded(
              if keyOf(item) in table then keys else keys + [keyOf(item)],
              table[keyOf(item) := if keyOf(item) in table then combine(table[keyOf(item)], item) else admit(item)],
              seen + [item], keyOf, admit, combine)
  {
    var key := keyOf(item);
    KeysNext(seen, item, keyOf);
    EntryNext(table, seen, item, keyOf, admit, combine);
    forall k | k in table && k != key ensures EntryOf(table[k], seen + [item], keyOf, admit, combine, k) {
      EntryStays(table[k], seen, item, keyOf, admit, combine, k);
    }
  }

  function Flatten<T>(groups: seq<seq<T>>): seq<T> {
    if groups == [] then [] else Flatten(groups[..|groups| - 1]) + groups[|groups| - 1]
  }

  /** The inner loop over one group, with the map's test for a key it has not seen. */
  method FoldGroup<T(!new), K(==, !new), V(!new)>(
      group: seq<T>, keys: seq<K>, table: map<K, V>, ghost seen: seq<T>, keyOf: T -> K, admit: T -> V, combine: (V, T) -> V)
    returns (keys': seq<K>, table': map<K, V>)
    requires Folded(keys, table, seen, keyOf, admit, combine)
    ensures Folded(keys', table', seen + group, keyOf, admit, combine)
  {
    keys', table' := keys, table;
    ghost var done := seen;
    for i := 0 to |group|
      invariant done == seen + group[..i]
      invariant Folded(keys', table', done, keyOf, admit, combine)
    {
      var item := group[i];
      FoldOne(keys', table', done, item, keyOf, admit, combine);
      AppendTaken(seen, group, i);
      done := done + [item];
      var key := keyOf(item);
      if key !in table' {
        keys', table' := keys' + [key], table'[key := admit(item)];
      } else {
        table' := table'[key := combine(table'[key], item)];
      }
    }
    assert group[..|group|] == group;
  }

  lemma AppendTaken<T>(seen: seq<T>, group: seq<T>, i: nat)
    requires i < |group|
    ensures seen + group[..i + 1] == (seen + group[..i]) + [group[i]]
  {
  }

  /** The nested loops compute, key by key, the fold of that key's items alone. */
  method FoldGroups<T(!new), K(==, !new), V(!new)>(
      groups: seq<seq<T>>, keyOf: T -> K, admit: T -> V, combine: (V, T) -> V)
    returns (keys: seq<K>, table: map<K, V>)
    ensures Folded(keys, table, Flatten(groups), keyOf, admit, combine)
  {
    keys, table := [], map[];
    for g := 0 to |groups|
      invariant Folded(keys, table, Flatten(groups[..g]), keyOf, admit, combine)
    {
      keys, table := FoldGroup(groups[g], keys, table, Flatten(groups[..g]), keyOf, admit, combine);
      assert groups[..g + 1][..g] == groups[..g];
    }
    assert groups[..|groups|] == groups;
  }

  /** The values of the map, in insertion order. */
  function Values<K(==), V>(table: map<K, V>, keys: seq<K>): (r: seq<V>)
    requires forall k :: k in keys ==> k in table
    ensures |r| == |keys| && forall i :: 0 <= i < |keys| ==> r[i] == table[keys[i]]
  {
    if keys == [] then [] else Values(table, keys[..|keys| - 1]) + [table[keys[|keys| - 1]]]
  }
}
