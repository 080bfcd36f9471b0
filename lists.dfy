/** The JavaScript array built-ins the consolidators use: `filter` and
    `slice(0, n)`, with the order-preserving subsequence relation that
    `filter` establishes. */
module Lists {

  /** `a` is `b` with some elements left out, the rest kept in order
      (matched greedily from the back). */
  predicate Subsequence<V(==)>(a: seq<V>, b: seq<V>)
    decreases |b|
  {
    if a == [] then true
    else if b == [] then false
    else if a[|a| - 1] == b[|b| - 1] then Subsequence(a[..|a| - 1], b[..|b| - 1])
    else Subsequence(a, b[..|b| - 1])
  }

  /** `s.filter(p)`: the elements satisfying `p`, in their original order. */
  function Filter<V>(s: seq<V>, p: V -> bool): (r: seq<V>)
    ensures |r| <= |s|
    ensures forall v :: v in r ==> v in s && p(v)
    decreases |s|
  {
    if s == [] then [] else Filter(s[..|s| - 1], p) + (if p(s[|s| - 1]) then [s[|s| - 1]] else [])
  }

  /** `filter` keeps every element satisfying the predicate. */
  lemma {:induction false} FilterKeeps<V>(s: seq<V>, p: V -> bool, v: V)
    requires v in s && p(v)
    ensures v in Filter(s, p)
    decreases |s|
  {
    if v != s[|s| - 1] {
      assert s == s[..|s| - 1] + [s[|s| - 1]];
      FilterKeeps(s[..|s| - 1], p, v);
    }
  }

  /** `filter` keeps each element satisfying the predicate as often as it
      occurs, and drops every other one. */
  lemma {:induction false} FilterCount<V>(s: seq<V>, p: V -> bool, v: V)
    ensures multiset(Filter(s, p))[v] == if p(v) then multiset(s)[v] else 0
    decreases |s|
  {
    if s != [] {
      assert s == s[..|s| - 1] + [s[|s| - 1]];
      FilterCount(s[..|s| - 1], p, v);
    }
  }

  lemma {:induction false} SubsequenceDropLast<V>(a: seq<V>, b: seq<V>)
    requires a != [] && Subsequence(a, b)
    ensures Subsequence(a[..|a| - 1], b)
    decreases |b|
  {
    var a' := a[..|a| - 1];
    var b' := b[..|b| - 1];
    if a' != [] {
      if a[|a| - 1] == b[|b| - 1] {
        if a'[|a'| - 1] == b[|b| - 1] {
          SubsequenceDropLast(a', b');
        }
      } else {
        SubsequenceDropLast(a, b');
        if a'[|a'| - 1] == b[|b| - 1] {
          SubsequenceDropLast(a', b');
        }
      }
    }
  }

  /** What `filter` returns is a subsequence of its input. */
  lemma {:induction false} FilterSubsequence<V>(s: seq<V>, p: V -> bool)
    ensures Subsequence(Filter(s, p), s)
    decreases |s|
  {
    if s != [] {
      var s' := s[..|s| - 1];
      var r := Filter(s, p);
      FilterSubsequence(s', p);
      if p(s[|s| - 1]) {
        assert r[..|r| - 1] == Filter(s', p);
      } else {
        assert r == Filter(s', p);
        if r != [] {
          assert r[|r| - 1] in r;
          assert p(r[|r| - 1]);
        }
      }
    }
  }

  /** A subsequence is never longer, and holds only elements of the sequence. */
  lemma {:induction false} SubsequenceElements<V>(a: seq<V>, b: seq<V>)
    requires Subsequence(a, b)
    ensures |a| <= |b|
    ensures forall v :: v in a ==> v in b
    decreases |b|
  {
    if a != [] {
      var b' := b[..|b| - 1];
      assert b == b' + [b[|b| - 1]];
      if a[|a| - 1] == b[|b| - 1] {
        SubsequenceElements(a[..|a| - 1], b');
        assert a == a[..|a| - 1] + [a[|a| - 1]];
      } else {
        SubsequenceElements(a, b');
      }
    }
  }

  /** The first index holding a highest-scoring element: a scan that
      replaces the candidate only on a strictly higher score. */
  function ArgMax<V>(s: seq<V>, score: V -> int): (k: nat)
    requires |s| > 0
    ensures k < |s|
    ensures forall j :: 0 <= j < |s| ==> score(s[j]) <= score(s[k])
    ensures forall j :: 0 <= j < k ==> score(s[j]) < score(s[k])
    decreases |s|
  {
    if |s| == 1 then 0
    else
      var m := ArgMax(s[..|s| - 1], score);
      if score(s[|s| - 1]) > score(s[m]) then |s| - 1 else m
  }

  /** `s.slice(0, n)`. */
  function Take<V>(s: seq<V>, n: nat): (r: seq<V>)
    ensures |r| == if |s| < n then |s| else n
    ensures r <= s
  {
    if |s| < n then s else s[..n]
  }
}
