/** Sums of amounts by key, as a loop over a dictionary keeps them. */
module Ledger {

  datatype Entry<+K> = Entry(key: K, amount: int)

  /** What the entries under one key come to. */
  function TotalFor<K(==)>(entries: seq<Entry<K>>, key: K): int {
    if entries == [] then
      0
    else
      var last := entries[|entries| - 1];
      TotalFor(entries[..|entries| - 1], key) + if last.key == key then last.amount else 0
  }

  /** What all entries come to. */
  function Sum<K>(entries: seq<Entry<K>>): int {
    if entries == [] then 0 else Sum(entries[..|entries| - 1]) + entries[|entries| - 1].amount
  }

  ghost predicate Distinct<T>(s: seq<T>) {
    forall i, j :: 0 <= i < j < |s| ==> s[i] != s[j]
  }

  ghost predicate Covers<K, V>(order: seq<K>, totals: map<K, V>) {
    && Distinct(order)
    && (forall i :: 0 <= i < |order| ==> order[i] in totals)
    && (forall key :: key in totals ==> key in order)
  }

  /** The sum of a dictionary's values, taken in the given order. */
  function SumOf<K>(order: seq<K>, totals: map<K, int>): int
    requires forall i :: 0 <= i < |order| ==> order[i] in totals
  {
    if order == [] then 0 else SumOf(order[..|order| - 1], totals) + totals[order[|order| - 1]]
  }

  lemma {:induction false} SumAfterUpdate<K>(order: seq<K>, totals: map<K, int>, key: K, value: int)
    requires Distinct(order)
    requires forall i :: 0 <= i < |order| ==> order[i] in totals
    ensures key !in order ==> SumOf(order, totals[key := value]) == SumOf(order, totals)
    ensures key in order ==> key in totals && SumOf(order, totals[key := value]) == SumOf(order, totals) - totals[key] + value
  {
    if order != [] {
      var rest := order[..|order| - 1];
      SumAfterUpdate(rest, totals, key, value);
      assert order == rest + [order[|order| - 1]];
    }
  }

  /** `totals`, whose keys in insertion order are `order`, holds what the entries come to. */
  ghost predicate Balanced<K(!new)>(order: seq<K>, totals: map<K, int>, entries: seq<Entry<K>>) {
    && Covers(order, totals)
    && (forall key :: TotalFor(entries, key) == if key in totals then totals[key] else 0)
    && SumOf(order, totals) == Sum(entries)
  }

  /** One dictionary update, `totals[key] = totals.get(key, 0) + amount`. */
  function Post<K(==)>(order: seq<K>, totals: map<K, int>, entry: Entry<K>): (seq<K>, map<K, int>) {
    if entry.key in totals then
      (order, totals[entry.key := totals[entry.key] + entry.amount])
    else
      (order + [entry.key], totals[entry.key := entry.amount])
  }

  lemma PostKeepsCover<K>(order: seq<K>, totals: map<K, int>, entry: Entry<K>)
    requires Covers(order, totals)
    ensures var (o, t) := Post(order, totals, entry);
      Covers(o, t) && SumOf(o, t) == SumOf(order, totals) + entry.amount
  {
    var (o, t) := Post(order, totals, entry);
    SumAfterUpdate(order, totals, entry.key, t[entry.key]);
    if entry.key !in totals {
      assert o[..|order|] == order;
    }
  }

  lemma PostKeepsBalance<K(!new)>(order: seq<K>, totals: map<K, int>, entries: seq<Entry<K>>, entry: Entry<K>)
    requires Balanced(order, totals, entries)
    ensures var (o, t) := Post(order, totals, entry); Balanced(o, t, entries + [entry])
  {
    PostKeepsCover(order, totals, entry);
    assert (entries + [entry])[..|entries|] == entries;
  }

  /**
   Conservation: over any duplicate-free list of keys that includes every key used, the totals
   by key add up to the total of everything.
   */
  lemma {:induction false} TotalsAddUp<K>(keys: seq<K>, entries: seq<Entry<K>>)
    requires Distinct(keys) && forall i :: 0 <= i < |entries| ==> entries[i].key in keys
    ensures SumOverKeys(keys, entries) == Sum(entries)
  {
    if entries == [] {
      NothingUnderAnyKey(keys);
    } else {
      var rest := entries[..|entries| - 1];
      TotalsAddUp(keys, rest);
      OneMoreEntry(keys, rest, entries[|entries| - 1]);
      assert entries == rest + [entries[|entries| - 1]];
    }
  }

  function SumOverKeys<K(==)>(keys: seq<K>, entries: seq<Entry<K>>): int {
    if keys == [] then 0 else SumOverKeys(keys[..|keys| - 1], entries) + TotalFor(entries, keys[|keys| - 1])
  }

  lemma {:induction false} NothingUnderAnyKey<K>(keys: seq<K>)
    ensures SumOverKeys<K>(keys, []) == 0
  {
    if keys != [] {
      NothingUnderAnyKey(keys[..|keys| - 1]);
    }
  }

  lemma {:induction false} OneMoreEntry<K>(keys: seq<K>, entries: seq<Entry<K>>, entry: Entry<K>)
    requires Distinct(keys)
    ensures SumOverKeys(keys, entries + [entry])
      == SumOverKeys(keys, entries) + if entry.key in keys then entry.amount else 0
  {
    if keys != [] {
      var rest := keys[..|keys| - 1];
      OneMoreEntry(rest, entries, entry);
      assert keys == rest + [keys[|keys| - 1]];
      assert (entries + [entry])[..|entries|] == entries;
    }
  }
}
