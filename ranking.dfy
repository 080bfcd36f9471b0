/** `getKeyResources`: the group's assets sorted in place by non-increasing
    importance score (JavaScript's sort is stable, so assets of equal score keep
    their order), and the cleaned names of the first three. */
module Ranking {
  import opened Strings
  import opened Assets
  import opened Groups
  import opened Lists
  import opened Classify

  /** `name.replace(/^aws_/, '').replace(/_/g, ' ')`. */
  function CleanName(name: string): (r: string)
    ensures '_' !in r
    ensures |r| <= |name|
  {
    ReplaceChar(if StartsWith(name, "aws_") then name[4..] else name, '_', ' ')
  }

  /** A cleaned name is clean already: it has no `aws_` prefix and no underscore left. */
  lemma CleanNameIdempotent(name: string)
    ensures CleanName(CleanName(name)) == CleanName(name)
  {
    var r := CleanName(name);
    assert !StartsWith(r, "aws_") by {
      assert "aws_"[3] == '_';
    }
    assert ReplaceChar(r, '_', ' ') == r;
  }

  /** Only `aws_` and underscores are touched: the dot between type and name
      stays, so `aws_lambda_function.f` reads `lambda function.f`. */
  lemma CleanNameKeepsDot(name: string)
    requires name == "aws_lambda_function.f"
    ensures CleanName(name) == "lambda function.f"
  {
    assert StartsWith(name, "aws_");
  }

  /** The cleaned names of the assets, in order. */
  function CleanNames(s: seq<Asset>): (r: seq<string>)
    ensures |r| == |s|
  {
    seq(|s|, i requires 0 <= i < |s| => CleanName(s[i].name))
  }

  // ----- the stable sort by score -----

  predicate NonIncreasing<V>(s: seq<V>, score: V -> int) {
    forall i, j :: 0 <= i < j < |s| ==> score(s[i]) >= score(s[j])
  }

  /** One step of insertion sort: `x` goes after every element scoring at least
      as much, found by scanning from the back. */
  function InsertBy<V>(s: seq<V>, x: V, score: V -> int): (r: seq<V>)
    ensures |r| == |s| + 1
    decreases |s|
  {
    if s == [] || score(s[|s| - 1]) >= score(x) then s + [x]
    else InsertBy(s[..|s| - 1], x, score) + [s[|s| - 1]]
  }

  /** The stable sort by non-increasing score: insertion of each element in turn. */
  function SortBy<V>(s: seq<V>, score: V -> int): (r: seq<V>)
    ensures |r| == |s|
    decreases |s|
  {
    if s == [] then [] else InsertBy(SortBy(s[..|s| - 1], score), s[|s| - 1], score)
  }

  lemma {:induction false} InsertByMultiset<V>(s: seq<V>, x: V, score: V -> int)
    ensures multiset(InsertBy(s, x, score)) == multiset(s) + multiset{x}
    decreases |s|
  {
    if s != [] && score(s[|s| - 1]) < score(x) {
      InsertByMultiset(s[..|s| - 1], x, score);
      assert s == s[..|s| - 1] + [s[|s| - 1]];
    }
  }

  lemma {:induction false} InsertByOrdered<V>(s: seq<V>, x: V, score: V -> int)
    requires NonIncreasing(s, score)
    ensures NonIncreasing(InsertBy(s, x, score), score)
    decreases |s|
  {
    if s != [] && score(s[|s| - 1]) < score(x) {
      var s', l := s[..|s| - 1], s[|s| - 1];
      var r' := InsertBy(s', x, score);
      InsertByOrdered(s', x, score);
      InsertByMultiset(s', x, score);
      forall i | 0 <= i < |r'| ensures score(r'[i]) >= score(l) {
        assert r'[i] in multiset(r');
        if r'[i] != x {
          assert r'[i] in multiset(s');
          var k :| 0 <= k < |s'| && s'[k] == r'[i];
          assert s[k] == s'[k];
        }
      }
    }
  }

  /** Inserting `x` adds it behind the elements of its own score and leaves the
      relative order of every score class unchanged. */
  lemma {:induction false} InsertByClasses<V>(s: seq<V>, x: V, score: V -> int, k: int)
    ensures WithKey(InsertBy(s, x, score), score, k) == WithKey(s, score, k) + (if score(x) == k then [x] else [])
    decreases |s|
  {
    if s == [] || score(s[|s| - 1]) >= score(x) {
      ClassesAtStop(s, x, score, k);
    } else {
      var s', l := s[..|s| - 1], s[|s| - 1];
      InsertByClasses(s', x, score, k);
      assert InsertBy(s, x, score) == InsertBy(s', x, score) + [l];
      assert s' + [l] == s;
      ClassesPastLower(s', l, InsertBy(s', x, score), x, score, k);
    }
  }

  lemma ClassesAtStop<V>(s: seq<V>, x: V, score: V -> int, k: int)
    requires s == [] || score(s[|s| - 1]) >= score(x)
    ensures WithKey(InsertBy(s, x, score), score, k) == WithKey(s, score, k) + (if score(x) == k then [x] else [])
  {
    assert InsertBy(s, x, score) == s + [x];
    WithKeySnoc(s, x, score, k);
  }

  /** The step of `InsertByClasses` past an element `l` scoring below `x`:
      `l` and `x` never share a class, so their order does not matter to it. */
  lemma ClassesPastLower<V>(s': seq<V>, l: V, r': seq<V>, x: V, score: V -> int, k: int)
    requires score(l) < score(x)
    requires WithKey(r', score, k) == WithKey(s', score, k) + (if score(x) == k then [x] else [])
    ensures WithKey(r' + [l], score, k) == WithKey(s' + [l], score, k) + (if score(x) == k then [x] else [])
  {
    WithKeySnoc(r', l, score, k);
    WithKeySnoc(s', l, score, k);
  }



  /** The sort's result is ordered by non-increasing score. */
  lemma {:induction false} SortByOrdered<V>(s: seq<V>, score: V -> int)
    ensures NonIncreasing(SortBy(s, score), score)
    decreases |s|
  {
    if s != [] {
      SortByOrdered(s[..|s| - 1], score);
      InsertByOrdered(SortBy(s[..|s| - 1], score), s[|s| - 1], score);
    }
  }

  /** The sort's result is a permutation of its input. */
  lemma {:induction false} SortByPermutation<V>(s: seq<V>, score: V -> int)
    ensures multiset(SortBy(s, score)) == multiset(s)
    decreases |s|
  {
    if s != [] {
      SortByPermutation(s[..|s| - 1], score);
      InsertByMultiset(SortBy(s[..|s| - 1], score), s[|s| - 1], score);
      assert s == s[..|s| - 1] + [s[|s| - 1]];
    }
  }

  /** The sort is stable: the elements of each score keep their original order. */
  lemma {:induction false} SortByStable<V>(s: seq<V>, score: V -> int, k: int)
    ensures WithKey(SortBy(s, score), score, k) == WithKey(s, score, k)
    decreases |s|
  {
    if s != [] {
      SortByStable(s[..|s| - 1], score, k);
      InsertByClasses(SortBy(s[..|s| - 1], score), s[|s| - 1], score, k);
    }
  }

  /** Inserting `x` puts it after the longest prefix ending in an element
      that scores at least as high, before the rest, which all score lower. */
  lemma {:induction false} InsertByAt<V>(sorted: seq<V>, x: V, score: V -> int, j: nat)
    requires j <= |sorted|
    requires j == 0 || score(sorted[j - 1]) >= score(x)
    requires forall k :: j <= k < |sorted| ==> score(sorted[k]) < score(x)
    ensures InsertBy(sorted, x, score) == sorted[..j] + [x] + sorted[j..]
    decreases |sorted|
  {
    if j < |sorted| {
      var n := |sorted| - 1;
      InsertByAt(sorted[..n], x, score, j);
      assert sorted[..n][..j] == sorted[..j];
      assert sorted[j..] == sorted[..n][j..] + [sorted[n]];
    }
  }

  /** The shift of `insertionSort`'s inner loop: every element before `i`
      that scores below `x`, from the back, moves one place up, leaving a
      gap at `j`. */
  method ShiftUp<V>(a: array<V>, i: nat, x: V, score: V -> int) returns (j: nat)
    requires i < a.Length
    modifies a
    ensures j <= i
    ensures forall k :: 0 <= k < j ==> a[k] == old(a[k])
    ensures forall k :: j < k <= i ==> a[k] == old(a[k - 1])
    ensures forall k :: i < k < a.Length ==> a[k] == old(a[k])
    ensures j == 0 || score(old(a[j - 1])) >= score(x)
    ensures forall k :: j <= k < i ==> score(old(a[k])) < score(x)
  {
    j := i;
    while j > 0 && score(a[j - 1]) < score(x)
      invariant j <= i
      invariant forall k :: 0 <= k < j ==> a[k] == old(a[k])
      invariant forall k :: j < k <= i ==> a[k] == old(a[k - 1])
      invariant forall k :: i < k < a.Length ==> a[k] == old(a[k])
      invariant forall k :: j <= k < i ==> score(old(a[k])) < score(x)
    {
      a[j] := a[j - 1];
      j := j - 1;
    }
  }

  /** One pass of the outer loop: `a[i]` is inserted into the sorted prefix
      `a[..i]`; the rest of the array is untouched. */
  method InsertInPlace<V>(a: array<V>, i: nat, score: V -> int)
    requires i < a.Length
    modifies a
    ensures a[..i + 1] == InsertBy(old(a[..i]), old(a[i]), score)
    ensures a[i + 1..] == old(a[i + 1..])
  {
    ghost var sorted := a[..i];
    var x := a[i];
    var j := ShiftUp(a, i, x, score);
    a[j] := x;
    InsertByAt(sorted, x, score, j);
    assert a[..i + 1] == sorted[..j] + [x] + sorted[j..];
  }

  /** `a.sort((x, y) => score(y) - score(x))`, as an insertion sort in place. */
  method SortInPlace<V>(a: array<V>, score: V -> int)
    modifies a
    ensures a[..] == SortBy(old(a[..]), score)
  {
    ghost var input := a[..];
    var i := 0;
    while i < a.Length
      invariant 0 <= i <= a.Length
      invariant a[..i] == SortBy(input[..i], score)
      invariant a[i..] == input[i..]
    {
      assert a[i] == input[i];
      InsertInPlace(a, i, score);
      assert input[..i + 1][..i] == input[..i];
      i := i + 1;
    }
    assert input[..a.Length] == input;
  }

  /** The cleaned names of the three highest-scoring assets. */
  function KeyResources(s: seq<Asset>): seq<string> {
    CleanNames(Take(SortBy(s, Score), 3))
  }

  /** The first `n` of the sorted elements are elements of the input, and none
      of the rest scores higher. */
  lemma SortByTop<V>(s: seq<V>, score: V -> int, n: nat)
    ensures forall i :: 0 <= i < |SortBy(s, score)| ==> SortBy(s, score)[i] in s
    ensures forall i, j :: 0 <= i < n <= j < |s| ==> score(SortBy(s, score)[i]) >= score(SortBy(s, score)[j])
  {
    var r := SortBy(s, score);
    SortByOrdered(s, score);
    SortByPermutation(s, score);
    forall i | 0 <= i < |r| ensures r[i] in s {
      assert r[i] in multiset(r);
    }
  }

  /** At most three names, each the cleaned name of one of the assets, listed by
      non-increasing score, and no asset left out outscores a listed one. */
  lemma KeyResourcesTop(s: seq<Asset>)
    ensures |KeyResources(s)| == if |s| < 3 then |s| else 3
    ensures forall i :: 0 <= i < |KeyResources(s)| ==>
      KeyResources(s)[i] == CleanName(SortBy(s, Score)[i].name)
      && SortBy(s, Score)[i] in s
    ensures forall i, j :: 0 <= i < |KeyResources(s)| <= j < |s| ==>
      ImportanceScore(SortBy(s, Score)[i]) >= ImportanceScore(SortBy(s, Score)[j])
  {
    var r := SortBy(s, Score);
    var n := |KeyResources(s)|;
    SortByTop(s, Score, n);
  }

  /** `getKeyResources`: sorts the assets in place and returns the cleaned names of the first three. */
  method GetKeyResources(assets: array<Asset>) returns (names: seq<string>)
    modifies assets
    ensures assets[..] == SortBy(old(assets[..]), Score)
    ensures names == KeyResources(old(assets[..]))
  {
    SortInPlace(assets, Score);
    names := CleanNames(Take(assets[..], 3));
  }
}
