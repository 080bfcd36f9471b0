/** A JavaScript `Map` from keys to arrays, as the threat modeler fills it with
    `if (!m.has(k)) m.set(k, []); m.get(k)!.push(v)`: its entries in
    first-insertion order, which is the order `forEach` visits them in. */
module Groups {

  type Entries<K, V> = seq<(K, seq<V>)>

  predicate DistinctKeys<K(==), V>(g: Entries<K, V>) {
    forall i, j :: 0 <= i < j < |g| ==> g[i].0 != g[j].0
  }

  /** The position of key `k` among the entries, or -1 (`m.has(k)` is `IndexOfKey(m, k) >= 0`). */
  function IndexOfKey<K(==), V>(g: Entries<K, V>, k: K): (r: int)
    ensures -1 <= r < |g|
    ensures r >= 0 ==> g[r].0 == k
    ensures forall i :: 0 <= i < |g| && (r < 0 || i < r) ==> g[i].0 != k
    decreases |g|
  {
    if |g| == 0 then -1
    else if g[0].0 == k then 0
    else
      var r := IndexOfKey(g[1..], k);
      if r < 0 then -1 else r + 1
  }

  /** One `push` of `v` onto the array under key `k`, creating it when missing. */
  function Push<K(==), V>(g: Entries<K, V>, k: K, v: V): Entries<K, V> {
    var i := IndexOfKey(g, k);
    if i < 0 then g + [(k, [v])] else g[i := (k, g[i].1 + [v])]
  }

  /** The elements of `s` whose key is `k`, in order (`s.filter(v => key(v) === k)`). */
  function WithKey<K(==), V>(s: seq<V>, key: V -> K, k: K): (r: seq<V>)
    ensures |r| <= |s|
    ensures forall v :: v in r ==> v in s && key(v) == k
    decreases |s|
  {
    if s == [] then []
    else WithKey(s[..|s| - 1], key, k) + (if key(s[|s| - 1]) == k then [s[|s| - 1]] else [])
  }

  /** The map a `forEach` over `s` builds by pushing each element under its key. */
  function GroupBy<K(==), V>(s: seq<V>, key: V -> K): Entries<K, V>
    decreases |s|
  {
    if s == [] then [] else Push(GroupBy(s[..|s| - 1], key), key(s[|s| - 1]), s[|s| - 1])
  }

  /** The number of values held under all keys. */
  function TotalSize<K, V>(g: Entries<K, V>): nat
    decreases |g|
  {
    if g == [] then 0 else |g[0].1| + TotalSize(g[1..])
  }

  lemma {:induction false} TotalSizeAppend<K, V>(g: Entries<K, V>, e: (K, seq<V>))
    ensures TotalSize(g + [e]) == TotalSize(g) + |e.1|
    decreases |g|
  {
    if g != [] {
      assert (g + [e])[1..] == g[1..] + [e];
      TotalSizeAppend(g[1..], e);
    }
  }

  lemma {:induction false} TotalSizeGrow<K, V>(g: Entries<K, V>, i: nat, k: K, v: V)
    requires i < |g|
    ensures TotalSize(g[i := (k, g[i].1 + [v])]) == TotalSize(g) + 1
    decreases i
  {
    if i > 0 {
      assert g[i := (k, g[i].1 + [v])][1..] == g[1..][i - 1 := (k, g[i].1 + [v])];
      TotalSizeGrow(g[1..], i - 1, k, v);
    }
  }

  lemma WithKeySnoc<K, V>(s: seq<V>, v: V, key: V -> K, k: K)
    ensures WithKey(s + [v], key, k) == WithKey(s, key, k) + (if key(v) == k then [v] else [])
  {
    assert (s + [v])[..|s|] == s;
  }

  lemma {:induction false} WithKeyAbsent<K, V>(s: seq<V>, key: V -> K, k: K)
    requires forall j :: 0 <= j < |s| ==> key(s[j]) != k
    ensures WithKey(s, key, k) == []
    decreases |s|
  {
    if s != [] {
      WithKeyAbsent(s[..|s| - 1], key, k);
    }
  }

  /** Every element is among the elements of its own key. */
  lemma {:induction false} WithKeyHas<K, V>(s: seq<V>, key: V -> K, j: nat)
    requires j < |s|
    ensures s[j] in WithKey(s, key, key(s[j]))
    decreases |s|
  {
    if j < |s| - 1 {
      WithKeyHas(s[..|s| - 1], key, j);
    }
  }

  /** A group of one is the element that keyed it. */
  lemma WithKeySingleton<K, V>(s: seq<V>, key: V -> K, j: nat)
    requires j < |s| && |WithKey(s, key, key(s[j]))| == 1
    ensures WithKey(s, key, key(s[j])) == [s[j]]
  {
    WithKeyHas(s, key, j);
  }

  /** Grouping yields distinct keys, one for each key some element has. */
  lemma {:induction false} GroupByKeys<K, V>(s: seq<V>, key: V -> K)
    ensures DistinctKeys(GroupBy(s, key))
    ensures forall j :: 0 <= j < |s| ==> IndexOfKey(GroupBy(s, key), key(s[j])) >= 0
    ensures forall i :: 0 <= i < |GroupBy(s, key)| ==> exists j :: 0 <= j < |s| && key(s[j]) == GroupBy(s, key)[i].0
    decreases |s|
  {
    if s != [] {
      var s', v := s[..|s| - 1], s[|s| - 1];
      var g' := GroupBy(s', key);
      GroupByKeys(s', key);
      PushShape(g', key(v), v);
      var g := GroupBy(s, key);
      forall j | 0 <= j < |s| ensures IndexOfKey(g, key(s[j])) >= 0 {
        if j < |s| - 1 {
          assert s[j] == s'[j];
        }
      }
      forall i | 0 <= i < |g| ensures exists j :: 0 <= j < |s| && key(s[j]) == g[i].0 {
        if g[i].0 != key(v) {
          var j :| 0 <= j < |s'| && key(s'[j]) == g'[i].0;
          assert s[j] == s'[j];
        }
      }
    }
  }

  /** `push` keeps the keys distinct and known keys known, and adds its own. */
  lemma PushShape<K, V>(g: Entries<K, V>, k: K, v: V)
    requires DistinctKeys(g)
    ensures DistinctKeys(Push(g, k, v))
    ensures IndexOfKey(Push(g, k, v), k) >= 0
    ensures forall k' :: IndexOfKey(g, k') >= 0 ==> IndexOfKey(Push(g, k, v), k') >= 0
    ensures forall i :: 0 <= i < |Push(g, k, v)| ==>
              Push(g, k, v)[i].0 == k || (i < |g| && Push(g, k, v)[i].0 == g[i].0)
  {
    var x := IndexOfKey(g, k);
    if x < 0 {
      forall k' ensures IndexOfKey(Push(g, k, v), k') == if k' == k then |g| else IndexOfKey(g, k') {
        IndexOfKeyAppend(g, k, [v], k');
      }
    } else {
      forall k' ensures IndexOfKey(Push(g, k, v), k') == IndexOfKey(g, k') {
        IndexOfKeyUpdate(g, x, g[x].1 + [v], k');
      }
    }
  }


  /** Under each key grouping holds exactly the elements with that key, in their original order. */
  lemma {:induction false} GroupByMembers<K, V>(s: seq<V>, key: V -> K)
    ensures forall i :: 0 <= i < |GroupBy(s, key)| ==>
      && GroupBy(s, key)[i].1 == WithKey(s, key, GroupBy(s, key)[i].0)
      && |GroupBy(s, key)[i].1| > 0
    decreases |s|
  {
    if s != [] {
      var s', v := s[..|s| - 1], s[|s| - 1];
      var g' := GroupBy(s', key);
      var k := key(v);
      GroupByMembers(s', key);
      GroupByKeys(s', key);
      var g := GroupBy(s, key);
      var x := IndexOfKey(g', k);
      if x < 0 {
        assert g == g' + [(k, [v])];
        forall j | 0 <= j < |s'| ensures key(s'[j]) != k {
          assert IndexOfKey(g', key(s'[j])) >= 0;
        }
        WithKeyAbsent(s', key, k);
      } else {
        assert g == g'[x := (k, g'[x].1 + [v])];
      }
    }
  }

  /** Grouping never loses or duplicates an element, so it makes no more groups than elements. */
  lemma {:induction false} GroupBySize<K, V>(s: seq<V>, key: V -> K)
    ensures |GroupBy(s, key)| <= |s|
    ensures TotalSize(GroupBy(s, key)) == |s|
    decreases |s|
  {
    if s != [] {
      var s', v := s[..|s| - 1], s[|s| - 1];
      var g' := GroupBy(s', key);
      var k := key(v);
      GroupBySize(s', key);
      var x := IndexOfKey(g', k);
      if x < 0 {
        TotalSizeAppend(g', (k, [v]));
      } else {
        TotalSizeGrow(g', x, k, v);
      }
    }
  }

  /** The values under key `k`, or none when the key is missing. */
  function Lookup<K(==), V>(g: Entries<K, V>, k: K): seq<V> {
    var i := IndexOfKey(g, k);
    if i < 0 then [] else g[i].1
  }

  /** `m.get(k).add(v)` on a map of insertion-ordered sets, creating the set when
      missing: `v` joins the values under `k` unless it is already there. */
  function AddUnique<K(==), V(==)>(g: Entries<K, V>, k: K, v: V): Entries<K, V> {
    var i := IndexOfKey(g, k);
    if i < 0 then g + [(k, [v])]
    else if v in g[i].1 then g
    else g[i := (k, g[i].1 + [v])]
  }

  /** No value occurs twice in `s`. */
  predicate NoDuplicates<V(==)>(s: seq<V>) {
    forall i, j :: 0 <= i < j < |s| ==> s[i] != s[j]
  }

  lemma {:induction false} IndexOfKeyAppend<K, V>(g: Entries<K, V>, k: K, vs: seq<V>, k': K)
    requires IndexOfKey(g, k) < 0
    ensures IndexOfKey(g + [(k, vs)], k') == if k' == k then |g| else IndexOfKey(g, k')
    decreases |g|
  {
    if g != [] {
      assert (g + [(k, vs)])[1..] == g[1..] + [(k, vs)];
      if g[0].0 != k' {
        IndexOfKeyAppend(g[1..], k, vs, k');
      }
    }
  }

  lemma {:induction false} IndexOfKeyUpdate<K, V>(g: Entries<K, V>, i: nat, vs: seq<V>, k': K)
    requires i < |g|
    ensures IndexOfKey(g[i := (g[i].0, vs)], k') == IndexOfKey(g, k')
    decreases i
  {
    if i > 0 {
      assert g[i := (g[i].0, vs)][1..] == g[1..][i - 1 := (g[i].0, vs)];
      if g[0].0 != k' {
        IndexOfKeyUpdate(g[1..], i - 1, vs, k');
      }
    }
  }

  /** Adding to a set-valued entry changes only the set under its own key, and that one only when the value is new. */
  lemma AddUniqueLookup<K, V>(g: Entries<K, V>, k: K, v: V, k': K)
    ensures Lookup(AddUnique(g, k, v), k')
            == if k' == k && v !in Lookup(g, k) then Lookup(g, k) + [v] else Lookup(g, k')
    ensures IndexOfKey(AddUnique(g, k, v), k') >= 0 <==> IndexOfKey(g, k') >= 0 || k' == k
  {
    var i := IndexOfKey(g, k);
    if i < 0 {
      IndexOfKeyAppend(g, k, [v], k');
    } else if v !in g[i].1 {
      IndexOfKeyUpdate(g, i, g[i].1 + [v], k');
    }
  }

  /** Adding to a set-valued entry keeps keys distinct, sets free of duplicates and never empties a set. */
  lemma AddUniqueShape<K, V>(g: Entries<K, V>, k: K, v: V)
    requires DistinctKeys(g)
    requires forall i :: 0 <= i < |g| ==> NoDuplicates(g[i].1) && |g[i].1| > 0
    ensures DistinctKeys(AddUnique(g, k, v))
    ensures forall i :: 0 <= i < |AddUnique(g, k, v)| ==>
      NoDuplicates(AddUnique(g, k, v)[i].1) && |AddUnique(g, k, v)[i].1| > 0
  {
    var i := IndexOfKey(g, k);
    var r := AddUnique(g, k, v);
    if i >= 0 && v !in g[i].1 {
      forall a, b | 0 <= a < b < |r[i].1| ensures r[i].1[a] != r[i].1[b] {
        if b == |g[i].1| {
          assert r[i].1[b] == v && r[i].1[a] == g[i].1[a];
        }
      }
    }
  }

  /** With distinct keys, each entry is the one found under its own key. */
  lemma LookupEntry<K, V>(g: Entries<K, V>, j: nat)
    requires DistinctKeys(g) && j < |g|
    ensures Lookup(g, g[j].0) == g[j].1
  {
    var r := IndexOfKey(g, g[j].0);
    assert r >= 0 && r <= j;
  }

  /** The `forEach` that fills such a map: for each element, create the array
      under its key when missing, then push the element onto it. */
  method Fill<K(==), V>(s: seq<V>, key: V -> K) returns (g: Entries<K, V>)
    ensures g == GroupBy(s, key)
  {
    g := [];
    var i := 0;
    while i < |s|
      invariant 0 <= i <= |s|
      invariant g == GroupBy(s[..i], key)
    {
      var k := key(s[i]);
      ghost var before := g;
      var idx := IndexOfKey(g, k);
      if idx < 0 {
        g := g + [(k, [])];
        idx := |g| - 1;
      }
      g := g[idx := (k, g[idx].1 + [s[i]])];
      if IndexOfKey(before, k) < 0 {
        assert [] + [s[i]] == [s[i]];
        assert g == before + [(k, [s[i]])];
      }
      assert s[..i + 1][..i] == s[..i];
      i := i + 1;
    }
    assert s[..i] == s;
  }

  /** The results of a `forEach` over the entries that pushes `f(key, values)`
      for each one, in entry order. */
  function FlatMapGroups<K, V, W>(g: Entries<K, V>, f: (K, seq<V>) -> seq<W>): seq<W>
    decreases |g|
  {
    if g == [] then [] else FlatMapGroups(g[..|g| - 1], f) + f(g[|g| - 1].0, g[|g| - 1].1)
  }

  /** A result comes from exactly one of the entries. */
  lemma {:induction false} FlatMapGroupsIn<K, V, W>(g: Entries<K, V>, f: (K, seq<V>) -> seq<W>, w: W)
    ensures w in FlatMapGroups(g, f) <==> exists i :: 0 <= i < |g| && w in f(g[i].0, g[i].1)
    decreases |g|
  {
    if g != [] {
      var g' := g[..|g| - 1];
      FlatMapGroupsIn(g', f, w);
      if exists i :: 0 <= i < |g| && w in f(g[i].0, g[i].1) {
        var i :| 0 <= i < |g| && w in f(g[i].0, g[i].1);
        if i < |g'| {
          assert g'[i] == g[i];
        }
      }
    }
  }

  /** The union of `f` over the groups, in the spirit of `FlatMapGroups` for sets. */
  function UnionGroups<K, V, W>(g: Entries<K, V>, f: (K, seq<V>) -> set<W>): set<W>
    decreases |g|
  {
    if g == [] then {} else UnionGroups(g[..|g| - 1], f) + f(g[|g| - 1].0, g[|g| - 1].1)
  }

  lemma FlatMapThree<K, V, W>(g: Entries<K, V>, f: (K, seq<V>) -> seq<W>)
    requires |g| == 3
    ensures FlatMapGroups(g, f) == f(g[0].0, g[0].1) + f(g[1].0, g[1].1) + f(g[2].0, g[2].1)
  {
    assert g[..2][..1] == g[..1] && g[..1][..0] == [];
    assert FlatMapGroups(g[..1], f) == f(g[0].0, g[0].1);
    assert FlatMapGroups(g[..2], f) == FlatMapGroups(g[..1], f) + f(g[1].0, g[1].1);
  }

  lemma UnionThree<K, V, W>(g: Entries<K, V>, f: (K, seq<V>) -> set<W>)
    requires |g| == 3
    ensures UnionGroups(g, f) == f(g[0].0, g[0].1) + f(g[1].0, g[1].1) + f(g[2].0, g[2].1)
  {
    assert g[..2][..1] == g[..1] && g[..1][..0] == [];
    assert UnionGroups(g[..1], f) == f(g[0].0, g[0].1);
    assert UnionGroups(g[..2], f) == UnionGroups(g[..1], f) + f(g[1].0, g[1].1);
  }

  lemma {:induction false} UnionGroupsIn<K, V, W>(g: Entries<K, V>, f: (K, seq<V>) -> set<W>, w: W)
    ensures w in UnionGroups(g, f) <==> exists i :: 0 <= i < |g| && w in f(g[i].0, g[i].1)
    decreases |g|
  {
    if g != [] {
      var g' := g[..|g| - 1];
      UnionGroupsIn(g', f, w);
      if exists i :: 0 <= i < |g| && w in f(g[i].0, g[i].1) {
        var i :| 0 <= i < |g| && w in f(g[i].0, g[i].1);
        if i < |g'| {
          assert g'[i] == g[i];
        }
      }
    }
  }

  /** When no entry yields more results than it holds values, neither does the whole map. */
  lemma {:induction false} FlatMapGroupsSize<K, V, W>(g: Entries<K, V>, f: (K, seq<V>) -> seq<W>)
    requires forall k, vs :: |f(k, vs)| <= |vs|
    ensures |FlatMapGroups(g, f)| <= TotalSize(g)
    decreases |g|
  {
    if g != [] {
      var g' := g[..|g| - 1];
      FlatMapGroupsSize(g', f);
      assert g == g' + [g[|g| - 1]];
      TotalSizeAppend(g', g[|g| - 1]);
    }
  }

  /** When every entry yields at most one result, there are no more results than entries. */
  lemma {:induction false} FlatMapGroupsCount<K, V, W>(g: Entries<K, V>, f: (K, seq<V>) -> seq<W>)
    requires forall k, vs :: |f(k, vs)| <= 1
    ensures |FlatMapGroups(g, f)| <= |g|
    decreases |g|
  {
    if g != [] {
      FlatMapGroupsCount(g[..|g| - 1], f);
    }
  }

  /** Over a grouping, a result comes from the group of some element, and that
      group holds exactly the elements sharing its key, in their order. */
  lemma GroupedResults<K, V, W>(s: seq<V>, key: V -> K, f: (K, seq<V>) -> seq<W>, w: W)
    ensures w in FlatMapGroups(GroupBy(s, key), f)
            <==> exists j :: 0 <= j < |s| && w in f(key(s[j]), WithKey(s, key, key(s[j])))
  {
    var g := GroupBy(s, key);
    FlatMapGroupsIn(g, f, w);
    GroupByKeys(s, key);
    GroupByMembers(s, key);
    if w in FlatMapGroups(g, f) {
      var i :| 0 <= i < |g| && w in f(g[i].0, g[i].1);
      var j :| 0 <= j < |s| && key(s[j]) == g[i].0;
      assert w in f(key(s[j]), WithKey(s, key, key(s[j])));
    }
    if exists j :: 0 <= j < |s| && w in f(key(s[j]), WithKey(s, key, key(s[j]))) {
      var j :| 0 <= j < |s| && w in f(key(s[j]), WithKey(s, key, key(s[j])));
      var i := IndexOfKey(g, key(s[j]));
      assert g[i].1 == WithKey(s, key, key(s[j]));
    }
  }
}
