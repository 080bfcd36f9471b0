/** The `terraform graph` reader of the graph path: it keeps the
    `"X" -> "Y"` edge lines of the DOT text, strips the `[root] ` marker from
    each endpoint, derives a grouping key per edge from the type family or a
    shared name prefix, and collects the raw endpoint labels under each key,
    keeping only keys with more than one label. */
module Clusters {
  import opened Strings
  import opened Assets
  import opened Groups
  import opened Classify

  // ----- the edge regular expression `^\s*"([^"]+)"\s*->\s*"([^"]+)"` -----

  datatype DotEdge = DotEdge(from: string, to: string)

  /** The number of non-quote characters of `s` from position `i` on. */
  function NonQuoteRun(s: string, i: nat): (n: nat)
    requires i <= |s|
    ensures i + n <= |s|
    ensures forall k :: i <= k < i + n ==> s[k] != '"'
    ensures i + n < |s| ==> s[i + n] == '"'
    decreases |s| - i
  {
    if i < |s| && s[i] != '"' then 1 + NonQuoteRun(s, i + 1) else 0
  }

  lemma {:induction false} NonQuoteRunExact(s: string, i: nat, n: nat)
    requires i + n <= |s|
    requires forall k :: i <= k < i + n ==> s[k] != '"'
    requires i + n == |s| || s[i + n] == '"'
    ensures NonQuoteRun(s, i) == n
    decreases n
  {
    if n > 0 {
      NonQuoteRunExact(s, i + 1, n - 1);
    }
  }

  lemma {:induction false} SpaceRunExact(s: string, i: nat, n: nat)
    requires i + n <= |s|
    requires forall k :: i <= k < i + n ==> IsSpace(s[k])
    requires i + n == |s| || !IsSpace(s[i + n])
    ensures SpaceRun(s, i) == n
    decreases n
  {
    if n > 0 {
      SpaceRunExact(s, i + 1, n - 1);
    }
  }

  function SkipSpaces(s: string): string {
    s[SpaceRun(s, 0)..]
  }

  /** `"([^"]+)"` at the start of `s`: the quoted label and what follows the closing quote. */
  function QuotedLabel(s: string): (r: Option<(string, string)>)
    ensures r.Some? ==> r.value.0 != [] && '"' !in r.value.0
  {
    if |s| == 0 || s[0] != '"' then None
    else
      var n := NonQuoteRun(s, 1);
      if n == 0 || 1 + n == |s| then None
      else
        Some((s[1..1 + n], s[2 + n..]))
  }

  /** `\s*->\s*"([^"]+)"` at the start of `s`: the second label. */
  function ArrowLabel(s: string): (r: Option<string>)
    ensures r.Some? ==> r.value != [] && '"' !in r.value
  {
    var rest := SkipSpaces(s);
    if !("->" <= rest) then None
    else
      match QuotedLabel(SkipSpaces(rest[2..]))
      case None => None
      case Some(b) => Some(b.0)
  }

  /** The two labels of an edge line, or none when the line is not an edge. */
  function MatchEdgeLine(line: string): (r: Option<DotEdge>)
    ensures r.Some? ==> r.value.from != [] && '"' !in r.value.from
    ensures r.Some? ==> r.value.to != [] && '"' !in r.value.to
  {
    match QuotedLabel(SkipSpaces(line))
    case None => None
    case Some(a) =>
      match ArrowLabel(a.1)
      case None => None
      case Some(b) => Some(DotEdge(a.0, b))
  }

  /** `s` is made of white space only. */
  predicate AllSpace(s: string) {
    forall i :: 0 <= i < |s| ==> IsSpace(s[i])
  }

  lemma SkipSpacesPrefix(w: string, s: string)
    requires AllSpace(w)
    requires s == [] || !IsSpace(s[0])
    ensures SkipSpaces(w + s) == s
  {
    var t := w + s;
    SpaceRunExact(t, 0, |w|);
    assert t[|w|..] == s;
  }

  lemma QuotedLabelOf(x: string, rest: string)
    requires x != [] && '"' !in x
    ensures QuotedLabel("\"" + x + "\"" + rest) == Some((x, rest))
  {
    var s := "\"" + x + "\"" + rest;
    NonQuoteRunExact(s, 1, |x|);
    assert s[1..1 + |x|] == x;
    assert s[2 + |x|..] == rest;
  }

  /** The arrow and second label are read back whatever white space surrounds the arrow and whatever follows. */
  lemma ArrowLabelOf(w2: string, w3: string, y: string, tail: string)
    requires AllSpace(w2) && AllSpace(w3)
    requires y != [] && '"' !in y
    ensures ArrowLabel(w2 + "->" + w3 + "\"" + y + "\"" + tail) == Some(y)
  {
    var second := "\"" + y + "\"" + tail;
    var arrow := "->" + (w3 + second);
    assert w2 + "->" + w3 + "\"" + y + "\"" + tail == w2 + arrow;
    SkipSpacesPrefix(w2, arrow);
    assert arrow[2..] == w3 + second;
    SkipSpacesPrefix(w3, second);
    QuotedLabelOf(y, tail);
  }

  /** Every well-formed edge line is read back as its two labels, whatever white
      space leads it and whatever follows them (`rest` is read by ArrowLabel). */
  lemma MatchEdgeLineOf(w1: string, x: string, rest: string)
    requires AllSpace(w1)
    requires x != [] && '"' !in x
    ensures MatchEdgeLine(w1 + "\"" + x + "\"" + rest)
            == if ArrowLabel(rest).Some? then Some(DotEdge(x, ArrowLabel(rest).value)) else None
  {
    var first := "\"" + x + "\"" + rest;
    assert w1 + "\"" + x + "\"" + rest == w1 + first;
    SkipSpacesPrefix(w1, first);
    QuotedLabelOf(x, rest);
  }

  lemma {:induction false} NoQuoteNoContains(s: string, t: string)
    requires '"' !in s && '"' in t
    ensures !Contains(s, t)
  {
    if Contains(s, t) {
      var c := '"';
      ContainsChars(s, t, c);
    }
  }

  /** A line without a double quote is never an edge. */
  lemma NoQuoteNoEdge(line: string)
    requires '"' !in line
    ensures MatchEdgeLine(line).None?
  {
    var s := SkipSpaces(line);
    assert s == line[SpaceRun(line, 0)..];
    if |s| > 0 {
      assert s[0] in line;
    }
  }

  /** The present results of `f` over `xs`, in order. */
  function Collect<T, U>(xs: seq<T>, f: T -> Option<U>): seq<U>
    decreases |xs|
  {
    if xs == [] then []
    else
      var m := f(xs[|xs| - 1]);
      Collect(xs[..|xs| - 1], f) + (if m.Some? then [m.value] else [])
  }

  /** Collecting one more element appends what `f` gives for it, if anything. */
  lemma CollectStep<T, U>(xs: seq<T>, f: T -> Option<U>, i: nat)
    requires i < |xs|
    ensures Collect(xs[..i + 1], f) == Collect(xs[..i], f) + (if f(xs[i]).Some? then [f(xs[i]).value] else [])
  {
    assert xs[..i + 1][..i] == xs[..i];
  }

  /** A value is collected exactly when `f` gives it for some element. */
  lemma {:induction false} CollectIff<T, U>(xs: seq<T>, f: T -> Option<U>, u: U)
    ensures u in Collect(xs, f) <==> exists i :: 0 <= i < |xs| && f(xs[i]) == Some(u)
    decreases |xs|
  {
    if xs != [] {
      var init := xs[..|xs| - 1];
      CollectIff(init, f, u);
      if exists i :: 0 <= i < |xs| && f(xs[i]) == Some(u) {
        var i :| 0 <= i < |xs| && f(xs[i]) == Some(u);
        if i < |init| {
          assert init[i] == xs[i];
        }
      }
      if exists i :: 0 <= i < |init| && f(init[i]) == Some(u) {
        var i :| 0 <= i < |init| && f(init[i]) == Some(u);
        assert xs[i] == init[i];
      }
    }
  }

  /** The edges of the edge lines, in line order. */
  function MatchedEdges(lines: seq<string>): seq<DotEdge> {
    Collect(lines, MatchEdgeLine)
  }

  // ----- `extractResourceBase`: the regular expression `\[root\]\s+(.+)` -----

  /** The number of characters before the next line terminator of `s`, from position `i`. */
  function LineRun(s: string, i: nat): (n: nat)
    requires i <= |s|
    ensures i + n <= |s|
    ensures forall k :: i <= k < i + n ==> !IsLineTerminator(s[k])
    ensures i + n < |s| ==> IsLineTerminator(s[i + n])
    decreases |s| - i
  {
    if i < |s| && !IsLineTerminator(s[i]) then 1 + LineRun(s, i + 1) else 0
  }

  /** `\s+(.+)` from position `q` once `\s+` has taken `k` white-space characters:
      the greedy run backs off until `.+` finds a character to start on. */
  function CaptureAfterSpaces(s: string, q: nat, k: nat): (r: Option<string>)
    requires q + k <= |s|
    ensures r.Some? ==> r.value != [] && Contains(s, r.value)
    decreases k
  {
    if k == 0 then None
    else if q + k < |s| && !IsLineTerminator(s[q + k]) then
      var n := LineRun(s, q + k);
      assert OccursAt(s, s[q + k..q + k + n], q + k);
      ContainsAt(s, s[q + k..q + k + n], q + k);
      Some(s[q + k..q + k + n])
    else CaptureAfterSpaces(s, q, k - 1)
  }

  /** The leftmost match of `\[root\]\s+(.+)` at or after position `p`, as its capture. */
  function RootCaptureFrom(s: string, p: nat): (r: Option<string>)
    requires p <= |s|
    ensures r.Some? ==> r.value != [] && Contains(s, r.value)
    decreases |s| - p
  {
    if p + 6 > |s| then None
    else if OccursAt(s, "[root]", p) && CaptureAfterSpaces(s, p + 6, SpaceRun(s, p + 6)).Some? then
      CaptureAfterSpaces(s, p + 6, SpaceRun(s, p + 6))
    else RootCaptureFrom(s, p + 1)
  }

  /** The resource address of a graph node label: the text after `[root]` and
      its white space, or the label itself when it has no such marker. */
  function ExtractResourceBase(node: string): (base: string)
    ensures base == node || (base != [] && Contains(node, base))
  {
    match RootCaptureFrom(node, 0)
    case Some(c) => c
    case None => node
  }

  lemma {:induction false} LineRunExact(s: string, i: nat, n: nat)
    requires i + n <= |s|
    requires forall k :: i <= k < i + n ==> !IsLineTerminator(s[k])
    requires i + n == |s| || IsLineTerminator(s[i + n])
    ensures LineRun(s, i) == n
    decreases n
  {
    if n > 0 {
      LineRunExact(s, i + 1, n - 1);
    }
  }

  /** `s` holds no line terminator. */
  predicate SingleLine(s: string) {
    forall i :: 0 <= i < |s| ==> !IsLineTerminator(s[i])
  }

  /** The marker and one space are stripped from `[root] <address>`. */
  lemma StripRoot(addr: string)
    requires addr != [] && !IsSpace(addr[0]) && SingleLine(addr)
    ensures ExtractResourceBase("[root] " + addr) == addr
  {
    var s := "[root] " + addr;
    assert OccursAt(s, "[root]", 0);
    SpaceRunExact(s, 6, 1);
    assert !IsLineTerminator(s[7]);
    LineRunExact(s, 7, |addr|);
    assert s[7..7 + |addr|] == addr;
  }

  lemma {:induction false} NoRootFrom(s: string, p: nat)
    requires p <= |s| && !Contains(s, "[root]")
    ensures RootCaptureFrom(s, p).None?
    decreases |s| - p
  {
    if p + 6 <= |s| {
      if OccursAt(s, "[root]", p) {
        ContainsAt(s, "[root]", p);
      }
      NoRootFrom(s, p + 1);
    }
  }

  /** A label without the marker is its own address. */
  lemma NoRootUnchanged(node: string)
    requires !Contains(node, "[root]")
    ensures ExtractResourceBase(node) == node
  {
    NoRootFrom(node, 0);
  }

  // ----- `getLongestCommonPrefix` and `findCommonPattern` -----

  /** The longest common prefix of two strings. */
  function CommonPrefix(a: string, b: string): (p: string)
    ensures p <= a && p <= b
    ensures |p| < |a| && |p| < |b| ==> a[|p|] != b[|p|]
    decreases |a|
  {
    if a != [] && b != [] && a[0] == b[0] then [a[0]] + CommonPrefix(a[1..], b[1..]) else []
  }

  /** A common prefix after which the two strings end or differ is the longest one. */
  lemma {:induction false} CommonPrefixUnique(a: string, b: string, p: string)
    requires p <= a && p <= b
    requires |p| < |a| && |p| < |b| ==> a[|p|] != b[|p|]
    ensures p == CommonPrefix(a, b)
    decreases |p|
  {
    if p != [] {
      assert p[1..] <= a[1..] && p[1..] <= b[1..];
      CommonPrefixUnique(a[1..], b[1..], p[1..]);
      assert [p[0]] + p[1..] == p;
    }
  }

  /** The character-by-character loop of `getLongestCommonPrefix`. */
  method LongestCommonPrefix(a: string, b: string) returns (p: string)
    ensures p <= a && p <= b
    ensures |p| < |a| && |p| < |b| ==> a[|p|] != b[|p|]
    ensures p == CommonPrefix(a, b)
  {
    var i := 0;
    while i < |a| && i < |b| && a[i] == b[i]
      invariant 0 <= i <= |a| && i <= |b|
      invariant a[..i] == b[..i]
    {
      assert a[..i + 1] == a[..i] + [a[i]] && b[..i + 1] == b[..i] + [b[i]];
      i := i + 1;
    }
    p := a[..i];
    CommonPrefixUnique(a, b, p);
  }

  /** The grouping key of two resource addresses: the type family when their
      types are equal or related, else `<prefix>_group` when their names share
      more than three leading characters, else none. */
  function CommonPattern(r1: string, r2: string): (r: Option<string>)
    ensures r.Some? ==> r.value in FamilyTags || exists p :: |p| > 3 && r.value == p + "_group"
  {
    var p1 := Split(r1, '.');
    var p2 := Split(r2, '.');
    if |p1| >= 2 && |p2| >= 2 then
      if p1[0] == p2[0] || AreRelatedTypes(p1[0], p2[0]) then Some(TypeFamily(p1[0]))
      else
        var c := CommonPrefix(p1[1], p2[1]);
        if |c| > 3 then Some(c + "_group") else None
    else None
  }

  /** An address without a dot has no type and name, so it shares no key. */
  lemma CommonPatternNeedsDots(r1: string, r2: string)
    ensures ('.' !in r1 || '.' !in r2) ==> CommonPattern(r1, r2).None?
  {
    SplitHasParts(r1, '.');
    SplitHasParts(r2, '.');
  }

  /** Equal or related types give the family of the first type. */
  lemma CommonPatternFamily(t1: string, n1: string, t2: string, n2: string)
    requires '.' !in t1 && '.' !in n1 && '.' !in t2 && '.' !in n2
    requires t1 == t2 || AreRelatedTypes(t1, t2)
    ensures CommonPattern(t1 + "." + n1, t2 + "." + n2) == Some(TypeFamily(t1))
  {
    SplitAtSeparator(t1, n1, '.');
    SplitWithoutSeparator(n1, '.');
    SplitAtSeparator(t2, n2, '.');
    SplitWithoutSeparator(n2, '.');
    assert t1 + "." + n1 == t1 + ['.'] + n1;
    assert t2 + "." + n2 == t2 + ['.'] + n2;
  }

  /** Unrelated types are grouped by name exactly when the names share more than three leading characters. */
  lemma CommonPatternPrefix(t1: string, n1: string, t2: string, n2: string)
    requires '.' !in t1 && '.' !in n1 && '.' !in t2 && '.' !in n2
    requires t1 != t2 && !AreRelatedTypes(t1, t2)
    ensures CommonPattern(t1 + "." + n1, t2 + "." + n2)
            == if |CommonPrefix(n1, n2)| > 3 then Some(CommonPrefix(n1, n2) + "_group") else None
  {
    SplitAtSeparator(t1, n1, '.');
    SplitWithoutSeparator(n1, '.');
    SplitAtSeparator(t2, n2, '.');
    SplitWithoutSeparator(n2, '.');
    assert t1 + "." + n1 == t1 + ['.'] + n1;
    assert t2 + "." + n2 == t2 + ['.'] + n2;
  }

  /** The key depends on the order of the pair: related types take the family
      of the first one, so a VPC edge to a route table and the reverse edge get
      different keys. */
  lemma CommonPatternOrderMatters(vpc: string, table: string, n1: string, n2: string)
    requires vpc == "aws_vpc" && table == "aws_route_table"
    requires n1 != [] && '.' !in n1 && n2 != [] && '.' !in n2
    ensures CommonPattern(vpc + "." + n1, table + "." + n2) == Some("network_system")
    ensures CommonPattern(table + "." + n2, vpc + "." + n1) == Some("infrastructure_system")
  {
    assert '.' !in vpc;
    assert '.' !in table;
    VpcRouteTableRelated(vpc, table);
    TypeFamilyOfVpc(vpc);
    TypeFamilyOfRouteTable(table);
    CommonPatternFamily(vpc, n1, table, n2);
    CommonPatternFamily(table, n2, vpc, n1);
  }

  /** Every key `findCommonPattern` can give is a family tag, shown by its
      family's name, or a `<prefix>_group` key, whose name ends in ` group System`
      and is no family's name: a name-prefix cluster never passes for a family. */
  lemma PatternDisplayName(r1: string, r2: string, k: string)
    requires CommonPattern(r1, r2) == Some(k)
    ensures k in FamilyTags ==> ArchitecturalName(k) == ArchitecturalNames[k]
    ensures k !in FamilyTags ==>
              && (exists p :: ArchitecturalName(k) == p + " group System")
              && forall f :: f in FamilyTags ==> ArchitecturalName(k) != ArchitecturalNames[f]
  {
    var p1 := Split(r1, '.');
    var p2 := Split(r2, '.');
    if !(p1[0] == p2[0] || AreRelatedTypes(p1[0], p2[0])) {
      var c := CommonPrefix(p1[1], p2[1]);
      assert k == c + "_group";
      GroupKeyName(c);
    }
  }

  // ----- `extractArchitecturalClustersFromGraph` -----

  /** The grouping key of a DOT edge, computed from the addresses of its endpoints. */
  function EdgeKey(e: DotEdge): Option<string> {
    CommonPattern(ExtractResourceBase(e.from), ExtractResourceBase(e.to))
  }

  /** The sets of raw endpoint labels collected per key, in first-insertion
      order; an edge without a key adds nothing. */
  function LabelGroups(es: seq<DotEdge>, key: DotEdge -> Option<string>): Entries<string, string>
    decreases |es|
  {
    if es == [] then []
    else
      var g := LabelGroups(es[..|es| - 1], key);
      var e := es[|es| - 1];
      match key(e)
      case None => g
      case Some(k) => AddUnique(AddUnique(g, k, e.from), k, e.to)
  }

  /** The keys with more than one label, in order. */
  function KeepClusters(g: Entries<string, string>): (c: Entries<string, string>)
    ensures |c| <= |g|
    ensures forall x :: x in c <==> x in g && |x.1| > 1
    decreases |g|
  {
    if g == [] then []
    else KeepClusters(g[..|g| - 1]) + (if |g[|g| - 1].1| > 1 then [g[|g| - 1]] else [])
  }

  /** The collected sets have distinct keys, no repeated label and are never empty. */
  lemma {:induction false} LabelGroupsShape(es: seq<DotEdge>, key: DotEdge -> Option<string>)
    ensures DistinctKeys(LabelGroups(es, key))
    ensures forall i :: 0 <= i < |LabelGroups(es, key)| ==>
      NoDuplicates(LabelGroups(es, key)[i].1) && |LabelGroups(es, key)[i].1| > 0
    decreases |es|
  {
    if es != [] {
      var g := LabelGroups(es[..|es| - 1], key);
      LabelGroupsShape(es[..|es| - 1], key);
      var e := es[|es| - 1];
      if key(e).Some? {
        var k := key(e).value;
        AddUniqueShape(g, k, e.from);
        AddUniqueShape(AddUnique(g, k, e.from), k, e.to);
      }
    }
  }

  /** `l` is an endpoint of some edge of `es` whose key is `k`. */
  predicate EndpointUnder(es: seq<DotEdge>, key: DotEdge -> Option<string>, k: string, l: string) {
    exists j :: 0 <= j < |es| && key(es[j]) == Some(k) && (l == es[j].from || l == es[j].to)
  }

  /** Some edge of `es` has key `k`. */
  predicate KeyUsed(es: seq<DotEdge>, key: DotEdge -> Option<string>, k: string) {
    exists j :: 0 <= j < |es| && key(es[j]) == Some(k)
  }

  lemma EndpointUnderStep(es: seq<DotEdge>, key: DotEdge -> Option<string>, k: string, l: string)
    requires es != []
    ensures EndpointUnder(es, key, k, l) <==>
      EndpointUnder(es[..|es| - 1], key, k, l)
      || (key(es[|es| - 1]) == Some(k) && (l == es[|es| - 1].from || l == es[|es| - 1].to))
    ensures KeyUsed(es, key, k) <==> KeyUsed(es[..|es| - 1], key, k) || key(es[|es| - 1]) == Some(k)
  {
    var init := es[..|es| - 1];
    assert forall j :: 0 <= j < |init| ==> es[j] == init[j];
    if EndpointUnder(es, key, k, l) {
      var j :| 0 <= j < |es| && key(es[j]) == Some(k) && (l == es[j].from || l == es[j].to);
      if j < |init| {
        assert key(init[j]) == Some(k) && (l == init[j].from || l == init[j].to);
      }
    }
    if KeyUsed(es, key, k) {
      var j :| 0 <= j < |es| && key(es[j]) == Some(k);
      if j < |init| {
        assert key(init[j]) == Some(k);
      }
    }
  }

  /** A label is collected under a key exactly when it is an endpoint of an edge
      with that key, and a key is present exactly when some edge has it. */
  lemma {:induction false} LabelGroupsMembers(es: seq<DotEdge>, key: DotEdge -> Option<string>, k: string, l: string)
    ensures l in Lookup(LabelGroups(es, key), k) <==> EndpointUnder(es, key, k, l)
    ensures IndexOfKey(LabelGroups(es, key), k) >= 0 <==> KeyUsed(es, key, k)
    decreases |es|
  {
    if es != [] {
      var init := es[..|es| - 1];
      var g := LabelGroups(init, key);
      var e := es[|es| - 1];
      LabelGroupsMembers(init, key, k, l);
      EndpointUnderStep(es, key, k, l);
      match key(e)
      case None =>
        assert LabelGroups(es, key) == g;
      case Some(k') =>
        var g1 := AddUnique(g, k', e.from);
        var g2 := AddUnique(g1, k', e.to);
        assert LabelGroups(es, key) == g2;
        AddUniqueLookup(g, k', e.from, k);
        AddUniqueLookup(g1, k', e.to, k);
        assert l in Lookup(g1, k) <==> l in Lookup(g, k) || (k' == k && l == e.from);
        assert l in Lookup(g2, k) <==> l in Lookup(g1, k) || (k' == k && l == e.to);
    }
  }

  lemma KeepClustersStep(g: Entries<string, string>, n: nat)
    requires n < |g|
    ensures KeepClusters(g[..n + 1]) == KeepClusters(g[..n]) + (if |g[n].1| > 1 then [g[n]] else [])
  {
    assert g[..n + 1][..n] == g[..n];
  }

  lemma {:induction false} KeepClustersDistinct(g: Entries<string, string>)
    requires DistinctKeys(g)
    ensures DistinctKeys(KeepClusters(g))
    decreases |g|
  {
    if g != [] {
      var init := g[..|g| - 1];
      KeepClustersDistinct(init);
      var c := KeepClusters(init);
      forall i | 0 <= i < |c| ensures c[i].0 != g[|g| - 1].0 {
        assert c[i] in init;
      }
    }
  }

  /** The clusters of `lines` for any line reader `f` and edge key `key`. */
  function ClustersBy(lines: seq<string>, f: string -> Option<DotEdge>, key: DotEdge -> Option<string>): Entries<string, string> {
    KeepClusters(LabelGroups(Collect(lines, f), key))
  }

  /** The clusters of a DOT text. */
  function ClustersOf(dot: string): Entries<string, string> {
    ClustersBy(Split(dot, '\n'), MatchEdgeLine, EdgeKey)
  }

  /** Cluster keys are distinct; each cluster has more than one label, none repeated. */
  lemma ClustersDistinct(lines: seq<string>, f: string -> Option<DotEdge>, key: DotEdge -> Option<string>)
    ensures DistinctKeys(ClustersBy(lines, f, key))
    ensures forall i :: 0 <= i < |ClustersBy(lines, f, key)| ==>
      |ClustersBy(lines, f, key)[i].1| > 1 && NoDuplicates(ClustersBy(lines, f, key)[i].1)
  {
    var g := LabelGroups(Collect(lines, f), key);
    LabelGroupsShape(Collect(lines, f), key);
    KeepClustersDistinct(g);
    forall i | 0 <= i < |ClustersBy(lines, f, key)|
      ensures NoDuplicates(ClustersBy(lines, f, key)[i].1)
    {
      assert ClustersBy(lines, f, key)[i] in g;
    }
  }

  /** Every label of a cluster is an endpoint of a matched line whose edge has the cluster's key. */
  lemma ClustersSound(lines: seq<string>, f: string -> Option<DotEdge>, key: DotEdge -> Option<string>, i: nat, l: string)
    requires i < |ClustersBy(lines, f, key)| && l in ClustersBy(lines, f, key)[i].1
    ensures exists n, e ::
      0 <= n < |lines| && f(lines[n]) == Some(e) && key(e) == Some(ClustersBy(lines, f, key)[i].0) && (l == e.from || l == e.to)
  {
    var es := Collect(lines, f);
    var g := LabelGroups(es, key);
    var c := ClustersBy(lines, f, key);
    LabelGroupsShape(es, key);
    assert c[i] in g;
    var x :| 0 <= x < |g| && g[x] == c[i];
    LookupEntry(g, x);
    LabelGroupsMembers(es, key, c[i].0, l);
    var j :| 0 <= j < |es| && key(es[j]) == Some(c[i].0) && (l == es[j].from || l == es[j].to);
    CollectIff(lines, f, es[j]);
  }

  /** Both endpoints of every matched line whose edge has a cluster's key are labels of that cluster. */
  lemma ClustersComplete(lines: seq<string>, f: string -> Option<DotEdge>, key: DotEdge -> Option<string>, i: nat, n: nat)
    requires i < |ClustersBy(lines, f, key)| && n < |lines|
    requires f(lines[n]).Some? && key(f(lines[n]).value) == Some(ClustersBy(lines, f, key)[i].0)
    ensures f(lines[n]).value.from in ClustersBy(lines, f, key)[i].1
    ensures f(lines[n]).value.to in ClustersBy(lines, f, key)[i].1
  {
    var es := Collect(lines, f);
    var g := LabelGroups(es, key);
    var c := ClustersBy(lines, f, key);
    var e := f(lines[n]).value;
    LabelGroupsShape(es, key);
    CollectIff(lines, f, e);
    var j :| 0 <= j < |es| && es[j] == e;
    assert c[i] in g;
    var x :| 0 <= x < |g| && g[x] == c[i];
    LookupEntry(g, x);
    LabelGroupsMembers(es, key, c[i].0, e.from);
    LabelGroupsMembers(es, key, c[i].0, e.to);
    assert EndpointUnder(es, key, c[i].0, e.from) && EndpointUnder(es, key, c[i].0, e.to);
  }

  /** The clusters of a DOT text have distinct keys and more than one label each, none repeated. */
  lemma ClustersShape(dot: string)
    ensures DistinctKeys(ClustersOf(dot))
    ensures forall i :: 0 <= i < |ClustersOf(dot)| ==> |ClustersOf(dot)[i].1| > 1 && NoDuplicates(ClustersOf(dot)[i].1)
  {
    ClustersDistinct(Split(dot, '\n'), MatchEdgeLine, EdgeKey);
  }

  /** The first loop: the edges of the edge lines, in order. */
  method CollectEdges(lines: seq<string>) returns (edges: seq<DotEdge>)
    ensures edges == Collect(lines, MatchEdgeLine)
    ensures forall e :: e in edges <==> exists n :: 0 <= n < |lines| && MatchEdgeLine(lines[n]) == Some(e)
  {
    edges := [];
    var i := 0;
    while i < |lines|
      invariant 0 <= i <= |lines|
      invariant edges == Collect(lines[..i], MatchEdgeLine)
    {
      CollectStep(lines, MatchEdgeLine, i);
      var m := MatchEdgeLine(lines[i]);
      if m.Some? {
        edges := edges + [m.value];
      }
      i := i + 1;
    }
    assert lines[..i] == lines;
    forall e ensures e in edges <==> exists n :: 0 <= n < |lines| && MatchEdgeLine(lines[n]) == Some(e) {
      CollectIff(lines, MatchEdgeLine, e);
    }
  }

  /** The body of the edge loop: both endpoints of an edge with a common
      pattern join that pattern's group. */
  method AddEdge(groups: Entries<string, string>, e: DotEdge) returns (g: Entries<string, string>)
    ensures g == match EdgeKey(e)
                 case None => groups
                 case Some(k) => AddUnique(AddUnique(groups, k, e.from), k, e.to)
  {
    g := groups;
    var fromBase := ExtractResourceBase(e.from);
    var toBase := ExtractResourceBase(e.to);
    var pattern := CommonPattern(fromBase, toBase);
    if pattern.Some? {
      g := AddUnique(g, pattern.value, e.from);
      g := AddUnique(g, pattern.value, e.to);
    }
  }

  /** The second loop: each edge with a key adds both its raw endpoint labels to the set under that key. */
  method GroupLabels(edges: seq<DotEdge>) returns (groups: Entries<string, string>)
    ensures groups == LabelGroups(edges, EdgeKey)
  {
    groups := [];
    var j := 0;
    while j < |edges|
      invariant 0 <= j <= |edges|
      invariant groups == LabelGroups(edges[..j], EdgeKey)
    {
      groups := AddEdge(groups, edges[j]);
      assert edges[..j + 1][..j] == edges[..j];
      j := j + 1;
    }
    assert edges[..j] == edges;
  }

  /** The last loop: the keys whose sets hold more than one label. */
  method KeepLarge(groups: Entries<string, string>) returns (clusters: Entries<string, string>)
    ensures clusters == KeepClusters(groups)
  {
    clusters := [];
    var n := 0;
    while n < |groups|
      invariant 0 <= n <= |groups|
      invariant clusters == KeepClusters(groups[..n])
    {
      KeepClustersStep(groups, n);
      if |groups[n].1| > 1 {
        clusters := clusters + [groups[n]];
      }
      n := n + 1;
    }
    assert groups[..n] == groups;
  }

  /** `extractArchitecturalClustersFromGraph`: split into lines, collect the
      edges, fill the map of label sets, then keep the keys with more than one label. */
  method ExtractClusters(dot: string) returns (clusters: Entries<string, string>)
    ensures clusters == ClustersOf(dot)
  {
    var lines := Split(dot, '\n');
    var edges := CollectEdges(lines);
    var groups := GroupLabels(edges);
    clusters := KeepLarge(groups);
  }
}
