/** Maps whose values add up, filled from lists of entries. */
module KeyedTotals {

  function AddEntry<K, V>(m: map<K, V>, key: K, value: V, plus: (V, V) -> V): map<K, V> {
    m[key := if key in m then plus(m[key], value) else value]
  }

  function AddEntries<K, V>(m: map<K, V>, entries: seq<(K, V)>, plus: (V, V) -> V): map<K, V>
    decreases |entries|
  {
    if entries == [] then m else AddEntries(AddEntry(m, entries[0].0, entries[0].1, plus), entries[1..], plus)
  }

  function Index<K, V>(entries: seq<(K, V)>, plus: (V, V) -> V): map<K, V> {
    AddEntries(map[], entries, plus)
  }

  function Combined<K, V>(a: map<K, V>, b: map<K, V>, plus: (V, V) -> V): map<K, V> {
    map key | key in a.Keys + b.Keys ::
      if key in a && key in b then plus(a[key], b[key]) else if key in a then a[key] else b[key]
  }

  ghost predicate Closed<V(!new)>(plus: (V, V) -> V, ok: V -> bool) {
    forall x, y | ok(x) && ok(y) :: ok(plus(x, y))
  }

  ghost predicate Associative<V(!new)>(plus: (V, V) -> V, ok: V -> bool) {
    forall x, y, z | ok(x) && ok(y) && ok(z) :: plus(plus(x, y), z) == plus(x, plus(y, z))
  }

  /** On the values that are `ok`, addition is closed and associative. */
  ghost predicate Adds<V(!new)>(plus: (V, V) -> V, ok: V -> bool) {
    Closed(plus, ok) && Associative(plus, ok)
  }

  ghost predicate AllOk<K(!new), V>(m: map<K, V>, ok: V -> bool) {
    forall key | key in m :: ok(m[key])
  }

  ghost predicate EntriesOk<K, V>(entries: seq<(K, V)>, ok: V -> bool) {
    forall i | 0 <= i < |entries| :: ok(entries[i].1)
  }

  lemma CombinedAssociative<K(!new), V(!new)>(a: map<K, V>, b: map<K, V>, c: map<K, V>, plus: (V, V) -> V, ok: V -> bool)
    requires Adds(plus, ok) && AllOk(a, ok) && AllOk(b, ok) && AllOk(c, ok)
    ensures Combined(Combined(a, b, plus), c, plus) == Combined(a, Combined(b, c, plus), plus)
    ensures AllOk(Combined(a, b, plus), ok)
  {
  }

  lemma CombinedEmpty<K, V>(m: map<K, V>, plus: (V, V) -> V)
    ensures Combined(map[], m, plus) == m && Combined(m, map[], plus) == m
  {
  }

  /** Adding a list of entries adds the map they make. */
  lemma {:induction false} AddEntriesCombines<K(!new), V(!new)>(m: map<K, V>, entries: seq<(K, V)>, plus: (V, V) -> V, ok: V -> bool)
    requires Adds(plus, ok) && AllOk(m, ok) && EntriesOk(entries, ok)
    ensures AddEntries(m, entries, plus) == Combined(m, Index(entries, plus), plus)
    ensures AllOk(Index(entries, plus), ok) && AllOk(AddEntries(m, entries, plus), ok)
    decreases |entries|
  {
    if entries == [] {
      CombinedEmpty(m, plus);
    } else {
      var head, rest := map[entries[0].0 := entries[0].1], entries[1..];
      assert AllOk(head, ok);
      assert AddEntry(map[], entries[0].0, entries[0].1, plus) == head;
      assert AddEntry(m, entries[0].0, entries[0].1, plus) == Combined(m, head, plus);
      CombinedAssociative(m, head, Index(rest, plus), plus, ok) by {
        AddEntriesCombines(head, rest, plus, ok);
      }
      AddEntriesCombines(head, rest, plus, ok);
      AddEntriesCombines(Combined(m, head, plus), rest, plus, ok);
    }
  }

  lemma {:induction false} AddEntriesAppend<K, V>(m: map<K, V>, a: seq<(K, V)>, b: seq<(K, V)>, plus: (V, V) -> V)
    ensures AddEntries(m, a + b, plus) == AddEntries(AddEntries(m, a, plus), b, plus)
    decreases |a|
  {
    if a == [] {
      assert a + b == b;
    } else {
      assert (a + b)[0] == a[0] && (a + b)[1..] == a[1..] + b;
      AddEntriesAppend(AddEntry(m, a[0].0, a[0].1, plus), a[1..], b, plus);
    }
  }

  /** The list holds every entry of the map, once, in some order. */
  ghost predicate Enumerates<K, V>(entries: seq<(K, V)>, m: map<K, V>) {
    multiset(entries) == multiset(m.Items)
  }

  lemma ItemsWithout<K, V>(m: map<K, V>, key: K)
    requires key in m
    ensures (key, m[key]) in m.Items && (m - {key}).Items == m.Items - {(key, m[key])}
  {
    assert forall e: (K, V) :: e in m.Items <==> e.0 in m && m[e.0] == e.1;
    forall e: (K, V)
      ensures e in (m - {key}).Items <==> e in m.Items - {(key, m[key])}
    {
      assert e in (m - {key}).Items <==> e.0 in m - {key} && (m - {key})[e.0] == e.1;
    }
  }

  lemma EnumerationLast<K, V>(entries: seq<(K, V)>, key: K, value: V, m: map<K, V>)
    requires Enumerates(entries + [(key, value)], m)
    ensures key in m && m[key] == value && Enumerates(entries, m - {key})
  {
    var all := entries + [(key, value)];
    assert (key, value) in multiset(all);
    assert (key, value) in m.Items;
    ItemsWithout(m, key);
    assert multiset(all) == multiset(entries) + multiset{(key, value)};
    assert multiset(m.Items - {(key, value)}) == multiset(m.Items) - multiset{(key, value)};
    assert multiset(entries) == multiset(all) - multiset{(key, value)};
  }

  function Valued<K, V, W>(entries: seq<(K, V)>, f: V -> W): seq<(K, W)> {
    seq(|entries|, i requires 0 <= i < |entries| => (entries[i].0, f(entries[i].1)))
  }

  function ValuedMap<K, V, W>(m: map<K, V>, f: V -> W): map<K, W> {
    map key | key in m :: f(m[key])
  }

  /** In whatever order a map is listed, the list makes that map again. */
  lemma {:induction false} EnumerationIndexes<K, V, W>(entries: seq<(K, V)>, m: map<K, V>, f: V -> W, plus: (W, W) -> W)
    requires Enumerates(entries, m)
    ensures Index(Valued(entries, f), plus) == ValuedMap(m, f)
    decreases |entries|
  {
    if entries == [] {
      assert m.Items == {} by {
        assert |multiset(m.Items)| == 0;
      }
      if key :| key in m {
        ItemsWithout(m, key);
      }
      assert m == map[];
    } else {
      var last := |entries| - 1;
      var before, key, value := entries[..last], entries[last].0, entries[last].1;
      assert entries == before + [(key, value)];
      EnumerationLast(before, key, value, m);
      EnumerationIndexes(before, m - {key}, f, plus);
      assert Valued(entries, f) == Valued(before, f) + [(key, f(value))];
      AddEntriesAppend(map[], Valued(before, f), [(key, f(value))], plus);
      AddOne(ValuedMap(m - {key}, f), key, f(value), plus);
    }
  }

  lemma AddOne<K, V>(m: map<K, V>, key: K, value: V, plus: (V, V) -> V)
    ensures AddEntries(m, [(key, value)], plus) == AddEntry(m, key, value, plus)
  {
  }

  /** Lists a map, in an arbitrary order. */
  method Entries<K(==), V(==)>(m: map<K, V>) returns (entries: seq<(K, V)>)
    ensures Enumerates(entries, m)
  {
    entries := [];
    var left := m;
    while left != map[]
      invariant left.Items <= m.Items
      invariant multiset(entries) == multiset(m.Items - left.Items)
      decreases |left|
    {
      var key :| key in left;
      ItemsWithout(left, key);
      assert m.Items - (left - {key}).Items == (m.Items - left.Items) + {(key, left[key])};
      assert (left - {key}).Keys == left.Keys - {key};
      entries := entries + [(key, left[key])];
      left := left - {key};
    }
    assert m.Items - left.Items == m.Items;
  }

  // Lists that have each key once

  ghost predicate KeysOnce<K, V>(entries: seq<(K, V)>) {
    forall i, j | 0 <= i < j < |entries| :: entries[i].0 != entries[j].0
  }

  /** The map such a list makes holds its entries and nothing else. */
  lemma {:induction false} IndexOfOnce<K(!new), V>(entries: seq<(K, V)>, plus: (V, V) -> V)
    requires KeysOnce(entries)
    ensures forall key :: key in Index(entries, plus) <==> exists i :: 0 <= i < |entries| && entries[i].0 == key
    ensures forall i | 0 <= i < |entries| :: Index(entries, plus)[entries[i].0] == entries[i].1
    decreases |entries|
  {
    if entries != [] {
      var before, last := entries[..|entries| - 1], entries[|entries| - 1];
      assert entries == before + [last];
      IndexOfOnce(before, plus);
      AddEntriesAppend(map[], before, [last], plus);
      AddOne(Index(before, plus), last.0, last.1, plus);
      forall key
        ensures key in Index(entries, plus) <==> exists i :: 0 <= i < |entries| && entries[i].0 == key
      {
        if key in Index(before, plus) {
          var i :| 0 <= i < |before| && before[i].0 == key;
          assert entries[i].0 == key;
        }
        if key == last.0 {
          assert entries[|entries| - 1].0 == key;
        }
      }
      forall i | 0 <= i < |entries|
        ensures Index(entries, plus)[entries[i].0] == entries[i].1
      {
        if i < |before| {
          assert entries[i] == before[i] && entries[i].0 != last.0;
        }
      }
    }
  }

  lemma Twice<T>(xs: seq<T>, i: nat, j: nat)
    requires i < j < |xs| && xs[i] == xs[j]
    ensures multiset(xs)[xs[i]] >= 2
  {
    assert xs == xs[..j] + xs[j..];
    assert xs[i] in xs[..j] && xs[i] in xs[j..];
  }

  lemma EnumeratesOnce<K, V>(entries: seq<(K, V)>, m: map<K, V>)
    requires Enumerates(entries, m)
    ensures KeysOnce(entries)
  {
    forall i, j | 0 <= i < j < |entries|
      ensures entries[i].0 != entries[j].0
    {
      assert entries[i] in multiset(entries) && entries[j] in multiset(entries);
      assert entries[i] in m.Items && entries[j] in m.Items;
      if entries[i].0 == entries[j].0 {
        Twice(entries, i, j);
      }
    }
  }

  // Adding up a list

  /** What the items of a list say together, one added after the other. */
  function Fold<R, D>(items: seq<R>, of: R -> D, zero: D, plus: (D, D) -> D): D {
    if items == [] then zero else plus(Fold(items[..|items| - 1], of, zero, plus), of(items[|items| - 1]))
  }

  ghost predicate Neutral<D(!new)>(zero: D, plus: (D, D) -> D, ok: D -> bool) {
    ok(zero) && forall d | ok(d) :: plus(zero, d) == d == plus(d, zero)
  }

  ghost predicate Maps<R(!new), D>(of: R -> D, sound: R -> bool, ok: D -> bool) {
    forall r | sound(r) :: ok(of(r))
  }

  ghost predicate All<R>(items: seq<R>, sound: R -> bool) {
    forall i | 0 <= i < |items| :: sound(items[i])
  }

  lemma FoldStep<R, D>(items: seq<R>, last: R, of: R -> D, zero: D, plus: (D, D) -> D)
    ensures Fold(items + [last], of, zero, plus) == plus(Fold(items, of, zero, plus), of(last))
  {
  }

  lemma {:induction false} FoldOk<R(!new), D(!new)>(items: seq<R>, of: R -> D, zero: D, plus: (D, D) -> D, sound: R -> bool, ok: D -> bool)
    requires Adds(plus, ok) && Neutral(zero, plus, ok) && Maps(of, sound, ok) && All(items, sound)
    ensures ok(Fold(items, of, zero, plus))
    decreases |items|
  {
    if items != [] {
      FoldOk(items[..|items| - 1], of, zero, plus, sound, ok);
    }
  }

  lemma {:induction false} FoldAppend<R(!new), D(!new)>(a: seq<R>, b: seq<R>, of: R -> D, zero: D, plus: (D, D) -> D, sound: R -> bool, ok: D -> bool)
    requires Adds(plus, ok) && Neutral(zero, plus, ok) && Maps(of, sound, ok) && All(a, sound) && All(b, sound)
    ensures Fold(a + b, of, zero, plus) == plus(Fold(a, of, zero, plus), Fold(b, of, zero, plus))
    decreases |b|
  {
    FoldOk(a, of, zero, plus, sound, ok);
    if b == [] {
      assert a + b == a;
    } else {
      var before, last := b[..|b| - 1], b[|b| - 1];
      assert b == before + [last] && a + b == (a + before) + [last];
      FoldStep(before, last, of, zero, plus);
      FoldStep(a + before, last, of, zero, plus);
      FoldAppend(a, before, of, zero, plus, sound, ok);
      FoldOk(before, of, zero, plus, sound, ok);
    }
  }
}
