/**
 Exact text replacements: each old text is located, the located spans are sorted and spliced into the text from
 the last to the first.
 */
module RepairSplice {
  import opened Permutations
  import opened Wrappers

  type Text = string

  datatype Replacement = Replacement(find: Text, put: Text) {
    /** The request model refuses anything else. */
    predicate Valid() {
      find != [] && find != put
    }
  }

  datatype Span = Span(from: nat, to: nat, text: Text)

  datatype SpliceError = NotExactlyOnce | Overlap | Emptied

  predicate OccursAt(s: Text, p: Text, i: nat) {
    i + |p| <= |s| && s[i..i + |p|] == p
  }

  /** How often `p` is found from position `from` on, resuming after each match: what `str.count` returns. */
  function Count(s: Text, p: Text, from: nat): nat
    requires p != [] && from <= |s|
    decreases |s| - from
  {
    if from + |p| > |s| then 0
    else if OccursAt(s, p, from) then 1 + Count(s, p, from + |p|)
    else Count(s, p, from + 1)
  }

  method CountMatches(s: Text, p: Text) returns (n: nat)
    requires p != []
    ensures n == Count(s, p, 0)
  {
    n := 0;
    var i := 0;
    while i + |p| <= |s|
      invariant 0 <= i <= |s|
      invariant n + Count(s, p, i) == Count(s, p, 0)
    {
      if s[i..i + |p|] == p {
        n, i := n + 1, i + |p|;
      } else {
        i := i + 1;
      }
    }
  }

  predicate FirstAt(s: Text, p: Text, i: nat) {
    OccursAt(s, p, i) && forall j :: 0 <= j < i ==> !OccursAt(s, p, j)
  }

  function IndexFrom(s: Text, p: Text, from: nat): (i: nat)
    requires p != [] && from <= |s|
    requires Count(s, p, from) > 0
    ensures OccursAt(s, p, i) && from <= i
    ensures forall j :: from <= j < i ==> !OccursAt(s, p, j)
    decreases |s| - from
  {
    if OccursAt(s, p, from) then from else IndexFrom(s, p, from + 1)
  }

  /** Each located span covers the leftmost occurrence of its old text. */
  function SpanOf(s: Text, r: Replacement): (x: Span)
    requires r.Valid() && Count(s, r.find, 0) == 1
    ensures x.from < x.to <= |s| && s[x.from..x.to] == r.find && FirstAt(s, r.find, x.from) && x.text == r.put
  {
    var start := IndexFrom(s, r.find, 0);
    Span(start, start + |r.find|, r.put)
  }

  predicate Locatable(s: Text, rs: seq<Replacement>) {
    forall r :: r in rs ==> r.Valid() && Count(s, r.find, 0) == 1
  }

  function SpansOf(s: Text, rs: seq<Replacement>): (xs: seq<Span>)
    requires Locatable(s, rs)
    ensures |xs| == |rs| && forall i :: 0 <= i < |rs| ==> xs[i] == SpanOf(s, rs[i])
  {
    seq(|rs|, i requires 0 <= i < |rs| => SpanOf(s, rs[i]))
  }

  // ---- sorting ----

  predicate Ordered(xs: seq<Span>) {
    forall i, j :: 0 <= i < j < |xs| ==> xs[i].from <= xs[j].from
  }

  function InsertSpan(xs: seq<Span>, x: Span): seq<Span> {
    if xs == [] || xs[|xs| - 1].from <= x.from then xs + [x]
    else InsertSpan(xs[..|xs| - 1], x) + [xs[|xs| - 1]]
  }

  /** Sorting by start. Ties may come in any order: two spans with one start overlap and are refused. */
  function SortSpans(xs: seq<Span>): seq<Span> {
    if xs == [] then [] else InsertSpan(SortSpans(xs[..|xs| - 1]), xs[|xs| - 1])
  }

  lemma {:induction false} InsertSorts(xs: seq<Span>, x: Span)
    requires Ordered(xs)
    ensures Ordered(InsertSpan(xs, x)) && multiset(InsertSpan(xs, x)) == multiset(xs) + multiset{x}
  {
    if xs == [] || xs[|xs| - 1].from <= x.from {
    } else {
      var init, last := xs[..|xs| - 1], xs[|xs| - 1];
      assert xs == init + [last];
      InsertSorts(init, x);
      hide InsertSpan;
      forall y | y in InsertSpan(init, x) ensures y.from <= last.from {
        assert y in multiset(InsertSpan(init, x));
      }
      OrderedSnoc(InsertSpan(init, x), last);
    }
  }

  lemma OrderedSnoc(xs: seq<Span>, last: Span)
    requires Ordered(xs) && forall y :: y in xs ==> y.from <= last.from
    ensures Ordered(xs + [last])
  {
  }

  lemma {:induction false} SortSorts(xs: seq<Span>)
    ensures Ordered(SortSpans(xs)) && multiset(SortSpans(xs)) == multiset(xs)
  {
    if xs != [] {
      var init, last := xs[..|xs| - 1], xs[|xs| - 1];
      assert SortSpans(xs) == InsertSpan(SortSpans(init), last);
      hide SortSpans, Ordered, InsertSpan;
      SortSorts(init);
      InsertSorts(SortSpans(init), last);
      assert xs == init + [last];
    }
  }

  // ---- overlap ----

  predicate Within(n: nat, xs: seq<Span>) {
    forall x :: x in xs ==> x.from < x.to <= n
  }

  /** What the code looks at: each span of the sorted list against its right neighbour. */
  predicate NeighboursApart(xs: seq<Span>) {
    forall i :: 0 <= i < |xs| - 1 ==> xs[i].to <= xs[i + 1].from
  }

  predicate Apart(xs: seq<Span>) {
    forall i, j :: 0 <= i < j < |xs| ==> xs[i].to <= xs[j].from
  }

  predicate Share(x: Span, y: Span) {
    x.from < y.to && y.from < x.to
  }

  /** No two replacements cover a common character, in whatever order they are listed. */
  predicate Disjoint(xs: seq<Span>) {
    forall i, j :: 0 <= i < j < |xs| ==> !Share(xs[i], xs[j])
  }

  lemma InitFits(n: nat, xs: seq<Span>)
    requires xs != [] && Within(n, xs)
    ensures Within(n, xs[..|xs| - 1])
  {
    assert forall x :: x in xs[..|xs| - 1] ==> x in xs;
  }

  lemma SpanAt(n: nat, xs: seq<Span>, i: nat)
    requires i < |xs| && Within(n, xs)
    ensures xs[i].from < xs[i].to <= n
  {
    assert xs[i] in xs;
  }

  lemma {:induction false} NeighboursSuffice(n: nat, xs: seq<Span>)
    requires Within(n, xs) && NeighboursApart(xs)
    ensures Apart(xs)
  {
    if xs != [] {
      var m := |xs| - 1;
      var init := xs[..m];
      InitFits(n, xs);
      NeighboursSuffice(n, init);
      hide Within;
      forall i | 0 <= i < m ensures xs[i].to <= xs[m].from {
        SpanAt(n, xs, m - 1);
        if i < m - 1 { assert init[i].to <= init[m - 1].from; }
      }
      forall i, j | 0 <= i < j < |xs| ensures xs[i].to <= xs[j].from {
        if j < m { assert init[i].to <= init[j].from; }
      }
    }
  }

  /** Pairwise disjointness depends on which spans there are, not on their order. */
  lemma DisjointByCount(n: nat, xs: seq<Span>)
    requires Within(n, xs)
    ensures Disjoint(xs) <==> DisjointBag(multiset(xs))
  {
    if Disjoint(xs) {
      forall x, y | x in multiset(xs) && y in multiset(xs) && Share(x, y) ensures x == y && multiset(xs)[x] == 1 {
        OnlySharesItself(n, xs, x, y);
      }
    }
    if DisjointBag(multiset(xs)) {
      forall i, j | 0 <= i < j < |xs| ensures !Share(xs[i], xs[j]) {
        assert xs[i] in multiset(xs) && xs[j] in multiset(xs);
        if xs[i] == xs[j] {
          TwiceInside(xs, i, j);
          assert xs[i] in xs;
        }
      }
    }
  }

  lemma OnlySharesItself(n: nat, xs: seq<Span>, x: Span, y: Span)
    requires Within(n, xs) && Disjoint(xs)
    requires x in xs && y in xs && Share(x, y)
    ensures x == y && multiset(xs)[x] == 1
  {
    var i :| 0 <= i < |xs| && xs[i] == x;
    var j :| 0 <= j < |xs| && xs[j] == y;
    assert i == j;
    forall k | 0 <= k < |xs| && k != i ensures xs[k] != x {
      assert !Share(xs[k], xs[i]);
    }
    RemoveOne(xs, i);
    assert x !in Without(xs, i);
  }

  lemma TwiceInside(xs: seq<Span>, i: nat, j: nat)
    requires i < j < |xs| && xs[i] == xs[j]
    ensures multiset(xs)[xs[i]] >= 2
  {
    RemoveOne(xs, i);
    assert Without(xs, i)[j - 1] == xs[i];
    assert xs[i] in Without(xs, i);
  }

  ghost predicate DisjointBag(b: multiset<Span>) {
    forall x, y :: x in b && y in b && Share(x, y) ==> x == y && b[x] == 1
  }

  /** The neighbour test on the sorted list decides whether any two of the listed spans share a character. */
  lemma NeighbourTestIsExact(n: nat, xs: seq<Span>)
    requires Within(n, xs)
    ensures NeighboursApart(SortSpans(xs)) <==> Disjoint(xs)
  {
    var ys := SortSpans(xs);
    SortSorts(xs);
    forall y | y in ys ensures y.from < y.to <= n {
      assert y in multiset(ys);
    }
    DisjointByCount(n, xs);
    DisjointByCount(n, ys);
    if NeighboursApart(ys) {
      NeighboursSuffice(n, ys);
      assert Disjoint(ys);
    }
    if Disjoint(ys) {
      forall i | 0 <= i < |ys| - 1 ensures ys[i].to <= ys[i + 1].from {
        assert ys[i] in ys && ys[i + 1] in ys && !Share(ys[i], ys[i + 1]);
      }
    }
  }

  /** The rightmost span of one list is the rightmost of the other. */
  lemma SameLast(n: nat, xs: seq<Span>, ys: seq<Span>, i: nat)
    requires Within(n, xs) && Within(n, ys) && Apart(xs) && Apart(ys)
    requires xs != [] && i < |ys| && ys[i] == xs[|xs| - 1] && ys[|ys| - 1] in xs
    ensures i == |ys| - 1
  {
    var k :| 0 <= k < |xs| && xs[k] == ys[|ys| - 1];
    assert xs[k] in xs && xs[|xs| - 1] in xs;
  }

  lemma PartFits(n: nat, xs: seq<Span>, a: nat, b: nat)
    requires Within(n, xs) && Apart(xs) && a <= b <= |xs|
    ensures Within(n, xs[a..b]) && Apart(xs[a..b])
  {
    assert forall x :: x in xs[a..b] ==> x in xs;
  }

  /** Sorted disjoint spans are determined by which spans there are. */
  lemma {:induction false} SortedIsUnique(n: nat, xs: seq<Span>, ys: seq<Span>)
    requires multiset(xs) == multiset(ys)
    requires Within(n, xs) && Within(n, ys) && Apart(xs) && Apart(ys)
    ensures xs == ys
  {
    hide Within, Apart, Without;
    if xs == [] {
      BothEmpty(ys);
    } else {
      var i := MatchLast(xs, ys);
      var m := |xs| - 1;
      SameMembers(xs, ys);
      SameLast(n, xs, ys, i);
      WithoutInit(ys, i);
      PartFits(n, xs, 0, m);
      PartFits(n, ys, 0, i);
      SortedIsUnique(n, xs[..m], ys[..i]);
      assert xs == xs[..m] + [xs[m]] && ys == ys[..i] + [ys[i]];
    }
  }

  // ---- substitution ----

  /** One pass from left to right: copy up to each span, put its new text, go on behind it. */
  function Substituted(s: Text, xs: seq<Span>, from: nat): Text
    requires from <= |s| && Within(|s|, xs) && Apart(xs)
    requires xs != [] ==> from <= xs[0].from
    decreases |xs|
  {
    if xs == [] then s[from..]
    else
      assert xs[0] in xs;
      assert forall x :: x in xs[1..] ==> x in xs;
      s[from..xs[0].from] + xs[0].text + Substituted(s, xs[1..], xs[0].to)
  }

  /** Text before the first span is copied, so starting later only drops a prefix. */
  lemma {:induction false} StartLater(s: Text, xs: seq<Span>, from: nat)
    requires from <= |s| && Within(|s|, xs) && Apart(xs)
    requires xs != [] ==> from <= xs[0].from
    ensures Substituted(s, xs, 0) == s[..from] + Substituted(s, xs, from)
  {
    if xs != [] {
      hide Substituted;
      SubstitutedFirst(s, xs, 0);
      SubstitutedFirst(s, xs, from);
      Regroup(s, from, xs[0].from, xs[0].text, Substituted(s, xs[1..], xs[0].to));
    } else {
      assert s[0..] == s[..from] + s[from..];
    }
  }

  lemma SubstitutedFirst(s: Text, xs: seq<Span>, from: nat)
    requires xs != [] && Within(|s|, xs) && Apart(xs) && from <= xs[0].from
    ensures xs[0].from <= xs[0].to <= |s| && Within(|s|, xs[1..]) && Apart(xs[1..])
    ensures |xs| > 1 ==> xs[0].to <= xs[1].from
    ensures Substituted(s, xs, from) == s[from..xs[0].from] + xs[0].text + Substituted(s, xs[1..], xs[0].to)
  {
    assert xs[0] in xs && forall x :: x in xs[1..] ==> x in xs;
  }

  lemma Regroup(s: Text, from: nat, to: nat, text: Text, rest: Text)
    requires from <= to <= |s|
    ensures s[0..to] + text + rest == s[..from] + (s[from..to] + text + rest)
  {
  }

  /** Splicing one span in front of those already substituted leaves what lies behind it alone. */
  lemma SpliceFirst(s: Text, xs: seq<Span>)
    requires xs != [] && Within(|s|, xs) && Apart(xs)
    ensures Within(|s|, xs[1..]) && Apart(xs[1..])
    ensures var u := Substituted(s, xs[1..], 0);
            xs[0].from <= xs[0].to <= |u|
            && u[..xs[0].from] + xs[0].text + u[xs[0].to..] == Substituted(s, xs, 0)
  {
    var x, rest := xs[0], xs[1..];
    assert x in xs && forall y :: y in rest ==> y in xs;
    StartLater(s, rest, x.to);
    var u := Substituted(s, rest, 0);
    assert u == s[..x.to] + Substituted(s, rest, x.to);
    assert u[..x.from] == s[0..x.from];
    assert u[x.to..] == Substituted(s, rest, x.to);
  }

  /** The loop of the source: the last span is spliced first, so earlier positions stay valid. */
  method SpliceInReverse(s: Text, xs: seq<Span>) returns (updated: Text)
    requires Within(|s|, xs) && Apart(xs)
    ensures updated == Substituted(s, xs, 0)
  {
    updated := s;
    var i := |xs|;
    assert xs[i..] == [];
    while i > 0
      invariant 0 <= i <= |xs|
      invariant forall x :: x in xs[i..] ==> x in xs
      invariant updated == Substituted(s, xs[i..], 0)
    {
      i := i - 1;
      var x := xs[i];
      assert xs[i..][1..] == xs[i + 1..] && xs[i..][0] == x;
      SpliceFirst(s, xs[i..]);
      updated := updated[..x.from] + x.text + updated[x.to..];
    }
    assert xs[0..] == xs;
  }

  // ---- what substitution means, without naming an order ----

  /** By how much the text in front of position `i` has grown. */
  function Growth(xs: seq<Span>, i: nat): int {
    if xs == [] then 0
    else Growth(xs[..|xs| - 1], i)
         + (var x := xs[|xs| - 1]; if x.to <= i then |x.text| - (x.to - x.from) else 0)
  }

  predicate Outside(xs: seq<Span>, i: nat) {
    forall x :: x in xs ==> i < x.from || x.to <= i
  }

  lemma {:induction false} GrowthFirst(xs: seq<Span>, i: nat)
    requires xs != []
    ensures Growth(xs, i)
            == Growth(xs[1..], i) + if xs[0].to <= i then |xs[0].text| - (xs[0].to - xs[0].from) else 0
  {
    if |xs| > 1 {
      var init := xs[..|xs| - 1];
      GrowthFirst(init, i);
      assert init[1..] == xs[1..][..|xs[1..]| - 1];
    } else {
      assert xs[..0] == [] && xs[1..] == [];
    }
  }

  lemma {:induction false} NoGrowthYet(xs: seq<Span>, i: nat)
    requires forall x :: x in xs ==> i < x.to
    ensures Growth(xs, i) == 0
  {
    if xs != [] {
      assert forall x :: x in xs[..|xs| - 1] ==> x in xs;
      NoGrowthYet(xs[..|xs| - 1], i);
      assert xs[|xs| - 1] in xs;
    }
  }

  lemma {:induction false} GrowthByBag(xs: seq<Span>, ys: seq<Span>, i: nat)
    requires multiset(xs) == multiset(ys)
    ensures Growth(xs, i) == Growth(ys, i)
  {
    if xs == [] {
      BothEmpty(ys);
    } else {
      var k := MatchLast(xs, ys);
      GrowthByBag(xs[..|xs| - 1], Without(ys, k), i);
      GrowthRemove(ys, k, i);
    }
  }

  lemma {:induction false} GrowthRemove(ys: seq<Span>, k: nat, i: nat)
    requires k < |ys|
    ensures Growth(ys, i)
            == Growth(Without(ys, k), i) + if ys[k].to <= i then |ys[k].text| - (ys[k].to - ys[k].from) else 0
  {
    hide Without;
    WithoutInit(ys, k);
    if k < |ys| - 1 {
      GrowthRemove(ys[..|ys| - 1], k, i);
      WithoutSize(ys, k);
    }
  }

  lemma WithoutSize(ys: seq<Span>, k: nat)
    requires k < |ys|
    ensures |Without(ys, k)| == |ys| - 1
  {
  }

  /** `u` is `s` with every span replaced: its length, the kept characters and the new texts, each at its place. */
  ghost predicate IsSubstitution(s: Text, xs: seq<Span>, u: Text) {
    && |u| == |s| + Growth(xs, |s|)
    && (forall i :: 0 <= i < |s| && Outside(xs, i) ==> KeptAt(s, xs, u, i))
    && (forall x :: x in xs ==> PutAt(xs, u, x))
  }

  ghost predicate KeptAt(s: Text, xs: seq<Span>, u: Text, i: nat)
    requires i < |s|
  {
    0 <= i + Growth(xs, i) < |u| && u[i + Growth(xs, i)] == s[i]
  }

  ghost predicate PutAt(xs: seq<Span>, u: Text, x: Span) {
    var at := x.from + Growth(xs, x.from);
    0 <= at <= at + |x.text| <= |u| && u[at..at + |x.text|] == x.text
  }

  lemma {:induction false} SubstitutedMeans(s: Text, xs: seq<Span>)
    requires Within(|s|, xs) && Apart(xs)
    ensures IsSubstitution(s, xs, Substituted(s, xs, 0))
  {
    if xs != [] {
      var rest := xs[1..];
      SpliceFirst(s, xs);
      SubstitutedMeans(s, rest);
      hide Substituted, IsSubstitution, Growth;
      FirstSpanMeans(s, xs, Substituted(s, rest, 0), Substituted(s, xs, 0));
    }
  }

  /** Splicing the first span in front of a substitution for the others. */
  lemma FirstSpanMeans(s: Text, xs: seq<Span>, u: Text, v: Text)
    requires xs != [] && Within(|s|, xs) && Apart(xs) && IsSubstitution(s, xs[1..], u)
    requires xs[0].from <= xs[0].to <= |u| && v == u[..xs[0].from] + xs[0].text + u[xs[0].to..]
    ensures IsSubstitution(s, xs, v)
  {
    hide Growth;
    assert xs[0] in xs;
    GrowthFirst(xs, |s|);
    forall i | 0 <= i < |s| && Outside(xs, i) ensures KeptAt(s, xs, v, i) {
      KeptByFirst(s, xs, u, v, i);
    }
    forall x | x in xs ensures PutAt(xs, v, x) {
      PutByFirst(s, xs, u, v, x);
    }
  }

  lemma KeptByFirst(s: Text, xs: seq<Span>, u: Text, v: Text, i: nat)
    requires xs != [] && Within(|s|, xs) && Apart(xs) && IsSubstitution(s, xs[1..], u)
    requires xs[0].from <= xs[0].to <= |u| && v == u[..xs[0].from] + xs[0].text + u[xs[0].to..]
    requires i < |s| && Outside(xs, i)
    ensures KeptAt(s, xs, v, i)
  {
    hide Growth;
    var x, rest := xs[0], xs[1..];
    assert x in xs && forall y :: y in rest ==> y in xs;
    GrowthFirst(xs, i);
    assert Outside(rest, i) && KeptAt(s, rest, u, i);
    if i < x.from {
      NoGrowthYet(rest, i);
    } else {
      GrowthNotBefore(s, rest, i, x.to);
    }
  }

  lemma PutByFirst(s: Text, xs: seq<Span>, u: Text, v: Text, y: Span)
    requires xs != [] && Within(|s|, xs) && Apart(xs) && IsSubstitution(s, xs[1..], u)
    requires xs[0].from <= xs[0].to <= |u| && v == u[..xs[0].from] + xs[0].text + u[xs[0].to..]
    requires y in xs
    ensures PutAt(xs, v, y)
  {
    hide Growth, KeptAt, Outside;
    var x, rest := xs[0], xs[1..];
    GrowthFirst(xs, y.from);
    if y == x {
      assert x in xs && forall z :: z in rest ==> z in xs;
      NoGrowthYet(rest, x.from);
    } else {
      assert y in rest;
      PutByLater(s, xs, u, y);
      ShiftedSlice(u, x, y.from + Growth(rest, y.from), |y.text|);
    }
  }

  lemma PutByLater(s: Text, xs: seq<Span>, u: Text, y: Span)
    requires xs != [] && Within(|s|, xs) && Apart(xs) && IsSubstitution(s, xs[1..], u)
    requires y in xs[1..]
    ensures PutAt(xs[1..], u, y) && xs[0].to <= y.from + Growth(xs[1..], y.from) && xs[0].to <= y.from
  {
    hide Growth, KeptAt, Outside;
    var x, rest := xs[0], xs[1..];
    assert x in xs && forall z :: z in rest ==> z in xs;
    assert PutAt(rest, u, y);
    GrowthNotBefore(s, rest, y.from, x.to);
  }

  lemma ShiftedSlice(u: Text, x: Span, a: int, n: nat)
    requires x.from <= x.to <= a <= a + n <= |u|
    ensures var v := u[..x.from] + x.text + u[x.to..];
            var d := |x.text| - (x.to - x.from);
            0 <= a + d <= a + d + n <= |v| && v[a + d..a + d + n] == u[a..a + n]
  {
  }

  /** Not inside a span: kept, or the start of one. */
  ghost predicate Boundary(xs: seq<Span>, i: nat) {
    forall x :: x in xs ==> i <= x.from || x.to <= i
  }

  /** Positions behind `to` stay behind it when all spans are behind it too. */
  lemma {:induction false} GrowthNotBefore(s: Text, xs: seq<Span>, i: nat, to: nat)
    requires Within(|s|, xs) && Apart(xs) && to <= i
    requires forall x :: x in xs ==> to <= x.from
    requires Boundary(xs, i)
    ensures to <= i + Growth(xs, i)
  {
    hide Growth;
    if xs == [] {
      NoGrowthYet(xs, i);
    } else {
      var x, rest := xs[0], xs[1..];
      assert x in xs && forall y :: y in rest ==> y in xs;
      GrowthFirst(xs, i);
      if x.to <= i {
        GrowthNotBefore(s, rest, i, x.to);
      } else {
        NoGrowthYet(rest, i);
      }
    }
  }

  ghost predicate FromKept(s: Text, xs: seq<Span>, q: int) {
    exists i :: 0 <= i < |s| && Outside(xs, i) && Growth(xs, i) + i == q
  }

  ghost predicate FromText(xs: seq<Span>, q: int) {
    exists x :: x in xs && x.from + Growth(xs, x.from) <= q < x.from + Growth(xs, x.from) + |x.text|
  }

  /** Every position of the result holds a kept character or part of a new text. */
  lemma {:induction false} AllPositionsCovered(s: Text, xs: seq<Span>, q: nat)
    requires Within(|s|, xs) && Apart(xs) && q < |s| + Growth(xs, |s|)
    ensures FromKept(s, xs, q) || FromText(xs, q)
  {
    hide Growth;
    if xs == [] {
      NoGrowthYet(xs, |s|);
      NoGrowthYet(xs, q);
      assert Outside(xs, q);
    } else {
      var x, rest := xs[0], xs[1..];
      assert x in xs && forall y :: y in rest ==> y in xs;
      GrowthFirst(xs, |s|);
      if q < x.from {
        NoGrowthYet(xs, q);
        assert Outside(xs, q);
      } else if q < x.from + |x.text| {
        NoGrowthYet(xs, x.from);
      } else {
        var d := |x.text| - (x.to - x.from);
        AllPositionsCovered(s, rest, q - d);
        CoveredBehind(s, xs, q, d);
      }
    }
  }

  lemma CoveredBehind(s: Text, xs: seq<Span>, q: nat, d: int)
    requires xs != [] && Within(|s|, xs) && Apart(xs)
    requires d == |xs[0].text| - (xs[0].to - xs[0].from) && xs[0].to <= q - d
    requires FromKept(s, xs[1..], q - d) || FromText(xs[1..], q - d)
    ensures FromKept(s, xs, q) || FromText(xs, q)
  {
    hide Growth, Within, Apart, Outside;
    var rest := xs[1..];
    if FromKept(s, rest, q - d) {
      var i :| 0 <= i < |s| && Outside(rest, i) && Growth(rest, i) + i == q - d;
      KeptBehind(s, xs, i, d);
    } else {
      var y :| y in rest && y.from + Growth(rest, y.from) <= q - d < y.from + Growth(rest, y.from) + |y.text|;
      assert y in xs;
      BehindFirst(s, xs, y);
      GrowthFirst(xs, y.from);
    }
  }

  lemma BehindFirst(s: Text, xs: seq<Span>, y: Span)
    requires xs != [] && Within(|s|, xs) && Apart(xs) && y in xs[1..]
    ensures xs[0].to <= y.from < y.to
  {
    assert y in xs;
  }

  lemma KeptBehind(s: Text, xs: seq<Span>, i: nat, d: int)
    requires xs != [] && Within(|s|, xs) && Apart(xs)
    requires d == |xs[0].text| - (xs[0].to - xs[0].from) && xs[0].to <= i + Growth(xs[1..], i)
    requires i < |s| && Outside(xs[1..], i)
    ensures Outside(xs, i) && Growth(xs, i) == Growth(xs[1..], i) + d
  {
    hide Growth;
    var x, rest := xs[0], xs[1..];
    assert x in xs && forall y :: y in rest ==> y in xs;
    if i < x.to { NoGrowthYet(rest, i); }
    GrowthFirst(xs, i);
  }

  lemma SamePosition(s: Text, xs: seq<Span>, u: Text, v: Text, q: nat)
    requires IsSubstitution(s, xs, u) && IsSubstitution(s, xs, v) && q < |u|
    requires FromKept(s, xs, q) || FromText(xs, q)
    ensures u[q] == v[q]
  {
    hide Growth;
    if FromKept(s, xs, q) {
      var i :| 0 <= i < |s| && Outside(xs, i) && Growth(xs, i) + i == q;
      assert KeptAt(s, xs, u, i) && KeptAt(s, xs, v, i);
    } else {
      var x :| x in xs && x.from + Growth(xs, x.from) <= q < x.from + Growth(xs, x.from) + |x.text|;
      assert PutAt(xs, u, x) && PutAt(xs, v, x);
      PutPosition(xs, u, x, q);
      PutPosition(xs, v, x, q);
    }
  }

  lemma PutPosition(xs: seq<Span>, u: Text, x: Span, q: nat)
    requires PutAt(xs, u, x)
    requires x.from + Growth(xs, x.from) <= q < x.from + Growth(xs, x.from) + |x.text|
    ensures q < |u| && u[q] == x.text[q - (x.from + Growth(xs, x.from))]
  {
    hide Growth;
    var at := x.from + Growth(xs, x.from);
    assert u[at..at + |x.text|][q - at] == u[q];
  }

  /** The description leaves no choice: it is met by one text only. */
  lemma SubstitutionIsUnique(s: Text, xs: seq<Span>, u: Text, v: Text)
    requires Within(|s|, xs) && Apart(xs)
    requires IsSubstitution(s, xs, u) && IsSubstitution(s, xs, v)
    ensures u == v
  {
    hide Growth, FromKept, FromText, Within, Apart;
    assert |u| == |v| == |s| + Growth(xs, |s|);
    forall q | 0 <= q < |u| ensures u[q] == v[q] {
      AllPositionsCovered(s, xs, q);
      SamePosition(s, xs, u, v, q);
    }
  }

  // ---- one file ----

  function Edited(s: Text, rs: seq<Replacement>): Result<Text, SpliceError>
    requires forall r :: r in rs ==> r.Valid()
  {
    if !Locatable(s, rs) then Err(NotExactlyOnce)
    else
      var xs := SortSpans(SpansOf(s, rs));
      if !NeighboursApart(xs) then Err(Overlap)
      else
        SortedSpansFit(s, rs);
        var u := Substituted(s, xs, 0);
        if u == [] then Err(Emptied) else Ok(u)
  }

  lemma SpansFit(s: Text, rs: seq<Replacement>)
    requires Locatable(s, rs)
    ensures Within(|s|, SpansOf(s, rs)) && Within(|s|, SortSpans(SpansOf(s, rs)))
  {
    var xs := SpansOf(s, rs);
    SortSorts(xs);
    forall x | x in xs ensures x.from < x.to <= |s| {
    }
    forall x | x in SortSpans(xs) ensures x.from < x.to <= |s| {
      assert x in multiset(SortSpans(xs));
    }
  }

  lemma SortedSpansFit(s: Text, rs: seq<Replacement>)
    requires Locatable(s, rs) && NeighboursApart(SortSpans(SpansOf(s, rs)))
    ensures Within(|s|, SortSpans(SpansOf(s, rs))) && Apart(SortSpans(SpansOf(s, rs)))
  {
    SpansFit(s, rs);
    NeighboursSuffice(|s|, SortSpans(SpansOf(s, rs)));
  }

  method Locate(s: Text, rs: seq<Replacement>) returns (r: Result<seq<Span>, SpliceError>)
    requires forall r :: r in rs ==> r.Valid()
    ensures r == if Locatable(s, rs) then Ok(SpansOf(s, rs)) else Err(NotExactlyOnce)
  {
    hide SpansOf, Locatable, Count;
    var spans := [];
    NothingToLocate(s);
    for i := 0 to |rs|
      invariant Locatable(s, rs[..i]) && spans == SpansOf(s, rs[..i])
    {
      assert rs[i] in rs && rs[i].Valid();
      var n := CountMatches(s, rs[i].find);
      if n != 1 {
        NotLocatable(s, rs, rs[i]);
        return Err(NotExactlyOnce);
      }
      assert rs[..i + 1][..i] == rs[..i];
      LocatableNext(s, rs, i);
      SpansOfInit(s, rs[..i + 1]);
      var start := IndexFrom(s, rs[i].find, 0);
      spans := spans + [Span(start, start + |rs[i].find|, rs[i].put)];
    }
    assert rs[..|rs|] == rs;
    r := Ok(spans);
  }

  lemma NotLocatable(s: Text, rs: seq<Replacement>, r: Replacement)
    requires r in rs && r.Valid() && Count(s, r.find, 0) != 1
    ensures !Locatable(s, rs)
  {
    hide Count;
  }

  lemma LocatableNext(s: Text, rs: seq<Replacement>, i: nat)
    requires i < |rs| && Locatable(s, rs[..i]) && rs[i].Valid() && Count(s, rs[i].find, 0) == 1
    ensures Locatable(s, rs[..i + 1])
  {
    hide Count;
    forall r | r in rs[..i + 1] ensures r.Valid() && Count(s, r.find, 0) == 1 {
      if r != rs[i] { assert r in rs[..i]; }
    }
  }

  lemma NothingToLocate(s: Text)
    ensures Locatable(s, []) && SpansOf(s, []) == []
  {
  }

  method AnyOverlap(spans: seq<Span>) returns (found: bool)
    ensures found == !NeighboursApart(spans)
  {
    var i := 0;
    while i + 1 < |spans|
      invariant 0 <= i
      invariant forall j :: 0 <= j < i && j + 1 < |spans| ==> spans[j].to <= spans[j + 1].from
    {
      if spans[i].to > spans[i + 1].from { return true; }
      i := i + 1;
    }
    found := false;
  }

  /** The work on one file: locate, sort, test the neighbours, splice from the end. */
  method EditFile(s: Text, rs: seq<Replacement>) returns (r: Result<Text, SpliceError>)
    requires forall r :: r in rs ==> r.Valid()
    ensures r == Edited(s, rs)
  {
    hide SortSpans, SpansOf, Substituted, NeighboursApart, Locatable, Within, Apart;
    var located := Locate(s, rs);
    if located.Err? { return Err(located.error); }
    var spans := SortSpans(located.value);
    var overlap := AnyOverlap(spans);
    if overlap { return Err(Overlap); }
    SortedSpansFit(s, rs);
    var updated := SpliceInReverse(s, spans);
    r := if updated == [] then Err(Emptied) else Ok(updated);
  }

  /**
   An edit gives the text `u` exactly when each old text is counted once, no two located spans share a character
   and `u` is the one text, not empty, in which all spans are replaced at once.
   */
  lemma EditMeans(s: Text, rs: seq<Replacement>, u: Text)
    requires forall r :: r in rs ==> r.Valid()
    ensures Edited(s, rs) == Ok(u) <==>
            Locatable(s, rs) && Disjoint(SpansOf(s, rs)) && u != [] && IsSubstitution(s, SpansOf(s, rs), u)
    ensures Edited(s, rs) == Err(NotExactlyOnce) <==> !Locatable(s, rs)
    ensures Edited(s, rs) == Err(Overlap) <==> Locatable(s, rs) && !Disjoint(SpansOf(s, rs))
  {
    if Locatable(s, rs) {
      var xs := SpansOf(s, rs);
      var ys := SortSpans(xs);
      SpansFit(s, rs);
      SortSorts(xs);
      NeighbourTestIsExact(|s|, xs);
      if NeighboursApart(ys) {
        SortedSpansFit(s, rs);
        hide Substituted, IsSubstitution, SortSpans, SpansOf, Within, Apart, Disjoint, Locatable;
        SortedEditMeans(s, xs, ys, u);
      }
    }
  }

  lemma SortedEditMeans(s: Text, xs: seq<Span>, ys: seq<Span>, u: Text)
    requires multiset(xs) == multiset(ys) && Within(|s|, ys) && Apart(ys)
    ensures u == Substituted(s, ys, 0) <==> IsSubstitution(s, xs, u)
  {
    hide Substituted, IsSubstitution, Within, Apart;
    var v := Substituted(s, ys, 0);
    SubstitutedMeans(s, ys);
    SubstitutionByBag(s, ys, xs, v);
    if IsSubstitution(s, xs, u) {
      SubstitutionByBag(s, xs, ys, u);
      SubstitutionIsUnique(s, ys, u, v);
    }
  }

  lemma SubstitutionByBag(s: Text, xs: seq<Span>, ys: seq<Span>, u: Text)
    requires multiset(xs) == multiset(ys) && IsSubstitution(s, xs, u)
    ensures IsSubstitution(s, ys, u)
  {
    GrowthByBag(xs, ys, |s|);
    SameMembers(xs, ys);
    forall i | 0 <= i < |s| && Outside(ys, i) ensures KeptAt(s, ys, u, i) {
      GrowthByBag(xs, ys, i);
      assert Outside(xs, i) && KeptAt(s, xs, u, i);
    }
    forall x | x in ys ensures PutAt(ys, u, x) {
      GrowthByBag(xs, ys, x.from);
      assert PutAt(xs, u, x);
    }
  }

  lemma {:induction false} SpansOfBag(s: Text, rs: seq<Replacement>, qs: seq<Replacement>)
    requires multiset(rs) == multiset(qs) && Locatable(s, rs) && Locatable(s, qs)
    ensures multiset(SpansOf(s, rs)) == multiset(SpansOf(s, qs))
  {
    if rs == [] {
      BothEmpty(qs);
    } else {
      var k := MatchLast(rs, qs);
      var m := |rs| - 1;
      SpansOfWithout(s, qs, k);
      SpansOfInit(s, rs);
      SpansOfBag(s, rs[..m], Without(qs, k));
      hide SpansOf, Locatable, Without, SpanOf;
      RemoveOne(SpansOf(s, qs), k);
      assert multiset(SpansOf(s, rs)) == multiset(SpansOf(s, rs[..m])) + multiset{SpanOf(s, rs[m])};
    }
  }

  lemma SpansOfInit(s: Text, rs: seq<Replacement>)
    requires Locatable(s, rs) && rs != []
    ensures Locatable(s, rs[..|rs| - 1])
    ensures SpansOf(s, rs) == SpansOf(s, rs[..|rs| - 1]) + [SpanOf(s, rs[|rs| - 1])]
  {
  }

  lemma SpansOfWithout(s: Text, qs: seq<Replacement>, k: nat)
    requires Locatable(s, qs) && k < |qs|
    ensures Locatable(s, Without(qs, k))
    ensures SpansOf(s, Without(qs, k)) == Without(SpansOf(s, qs), k)
  {
    assert forall x :: x in Without(qs, k) ==> x in qs;
  }

  /** Listing the replacements in another order changes neither the verdict nor the text. */
  lemma OrderIsIrrelevant(s: Text, rs: seq<Replacement>, qs: seq<Replacement>)
    requires forall r :: r in rs ==> r.Valid()
    requires multiset(rs) == multiset(qs)
    ensures forall q :: q in qs ==> q.Valid()
    ensures Edited(s, rs) == Edited(s, qs)
  {
    SameMembers(rs, qs);
    if Locatable(s, rs) {
      SpansOfBag(s, rs, qs);
      var xs, ys := SpansOf(s, rs), SpansOf(s, qs);
      SpansFit(s, rs);
      SpansFit(s, qs);
      NeighbourTestIsExact(|s|, xs);
      NeighbourTestIsExact(|s|, ys);
      DisjointByCount(|s|, xs);
      DisjointByCount(|s|, ys);
      if Disjoint(xs) {
        SortedSpansFit(s, rs);
        SortedSpansFit(s, qs);
        SortSorts(xs);
        SortSorts(ys);
        SortedIsUnique(|s|, SortSpans(xs), SortSpans(ys));
      }
    }
  }

  // ---- counted once is not occurring once ----

  predicate OccursOnce(s: Text, p: Text) {
    exists i :: 0 <= i <= |s| && OccursAt(s, p, i) && forall j :: 0 <= j <= |s| && OccursAt(s, p, j) ==> j == i
  }

  /** Some proper end of `p` is also its beginning. */
  predicate HasBorder(p: Text) {
    exists b :: 0 < b < |p| && p[..b] == p[|p| - b..]
  }

  lemma {:induction false} CountFindsLater(s: Text, p: Text, from: nat, i: nat)
    requires p != [] && from <= i && OccursAt(s, p, i)
    ensures Count(s, p, from) > 0
    decreases i - from
  {
    if from < i && !OccursAt(s, p, from) {
      CountFindsLater(s, p, from + 1, i);
    }
  }

  /** Two matches that do not overlap are both counted. */
  lemma {:induction false} CountFindsTwo(s: Text, p: Text, from: nat, i: nat, j: nat)
    requires p != [] && from <= i && OccursAt(s, p, i) && OccursAt(s, p, j) && i + |p| <= j
    ensures Count(s, p, from) > 1
    decreases i - from
  {
    if OccursAt(s, p, from) {
      CountFindsLater(s, p, from + |p|, j);
    } else {
      CountFindsTwo(s, p, from + 1, i, j);
    }
  }

  lemma {:induction false} CountFindsNone(s: Text, p: Text, from: nat)
    requires p != [] && from <= |s|
    requires forall i :: from <= i <= |s| ==> !OccursAt(s, p, i)
    ensures Count(s, p, from) == 0
    decreases |s| - from
  {
    if from + |p| <= |s| {
      CountFindsNone(s, p, from + 1);
    }
  }

  lemma {:induction false} OnlyMatchIsCountedOnce(s: Text, p: Text, from: nat, i: nat)
    requires p != [] && from <= i && OccursAt(s, p, i)
    requires forall j :: from <= j <= |s| && OccursAt(s, p, j) ==> j == i
    ensures Count(s, p, from) == 1
    decreases i - from
  {
    if from == i {
      CountFindsNone(s, p, from + |p|);
    } else {
      OnlyMatchIsCountedOnce(s, p, from + 1, i);
    }
  }

  /** Overlapping matches give `p` a border. */
  lemma OverlapMakesBorder(s: Text, p: Text, i: nat, j: nat)
    requires OccursAt(s, p, i) && OccursAt(s, p, j) && i < j < i + |p|
    ensures HasBorder(p)
  {
    var b := i + |p| - j;
    assert p[..b] == s[j..j + |p|][..b] == s[j..i + |p|];
    assert p[|p| - b..] == s[i..i + |p|][|p| - b..] == s[j..i + |p|];
  }

  /**
   "Must match once" is tested by a non-overlapping count. The test means a single occurrence in every text
   exactly for the old texts without a border; with one, "aa" in "aaa" is counted once and occurs twice.
   */
  lemma CountedOnceMeansUniqueIff(p: Text)
    requires p != []
    ensures (forall s: Text :: Count(s, p, 0) == 1 <==> OccursOnce(s, p)) <==> !HasBorder(p)
  {
    if HasBorder(p) {
      var b :| 0 < b < |p| && p[..b] == p[|p| - b..];
      BorderIsMiscounted(p, b);
    } else {
      forall s: Text ensures Count(s, p, 0) == 1 <==> OccursOnce(s, p) {
        BorderlessIsExact(s, p);
      }
    }
  }

  lemma BorderIsMiscounted(p: Text, b: nat)
    requires 0 < b < |p| && p[..b] == p[|p| - b..]
    ensures var s := p + p[b..]; Count(s, p, 0) == 1 && !OccursOnce(s, p)
  {
    var s := p + p[b..];
    BorderOccursTwice(p, b);
    assert 0 <= |p| - b <= |s|;
    assert Count(s, p, |p|) == 0;
  }

  lemma BorderOccursTwice(p: Text, b: nat)
    requires 0 < b < |p| && p[..b] == p[|p| - b..]
    ensures OccursAt(p + p[b..], p, 0) && OccursAt(p + p[b..], p, |p| - b)
  {
    var s, k := p + p[b..], |p| - b;
    assert s[0..|p|] == p;
    assert s[k..k + |p|] == p[k..] + p[b..] == p[..b] + p[b..] == p;
  }

  lemma BorderlessIsExact(s: Text, p: Text)
    requires p != [] && !HasBorder(p)
    ensures Count(s, p, 0) == 1 <==> OccursOnce(s, p)
  {
    if Count(s, p, 0) == 1 {
      var i := IndexFrom(s, p, 0);
      forall j | 0 <= j <= |s| && OccursAt(s, p, j) ensures j == i {
        if j != i {
          if j < i + |p| {
            OverlapMakesBorder(s, p, i, j);
          } else {
            CountFindsTwo(s, p, 0, i, j);
          }
        }
      }
      assert OccursAt(s, p, i) && i <= |s|;
    }
    if OccursOnce(s, p) {
      var i :| 0 <= i <= |s| && OccursAt(s, p, i) && forall j :: 0 <= j <= |s| && OccursAt(s, p, j) ==> j == i;
      OnlyMatchIsCountedOnce(s, p, 0, i);
    }
  }

  /** Spans may change every text they cover and still give the text back: such a plan is accepted. */
  lemma AcceptedEditMayChangeNothing()
    ensures var rs := [Replacement("a", "ab"), Replacement("b", "")];
            (forall r :: r in rs ==> r.Valid()) && Edited("ab", rs) == Ok("ab")
  {
    var s, rs := "ab", [Replacement("a", "ab"), Replacement("b", "")];
    var x, y := Span(0, 1, "ab"), Span(1, 2, "");
    hide Count, SpanOf, SortSpans, Substituted;
    SingleLetters();
    assert Locatable(s, rs) && SpansOf(s, rs) == [x, y];
    SortedPair(x, y);
    assert NeighboursApart([x, y]);
    SortedSpansFit(s, rs);
    PairSubstituted(s, x, y);
    assert s[..0] + "ab" + (s[1..1] + "" + s[2..]) == "ab";
  }

  lemma SingleLetters()
    ensures Count("ab", "a", 0) == 1 && Count("ab", "b", 0) == 1
    ensures SpanOf("ab", Replacement("a", "ab")) == Span(0, 1, "ab")
    ensures SpanOf("ab", Replacement("b", "")) == Span(1, 2, "")
  {
    var s := "ab";
    assert s[0..1] == "a" && s[1..2] == "b";
    assert OccursAt(s, "a", 0) && !OccursAt(s, "a", 1) && !OccursAt(s, "b", 0) && OccursAt(s, "b", 1);
    OnlyMatchIsCountedOnce(s, "a", 0, 0);
    OnlyMatchIsCountedOnce(s, "b", 0, 1);
  }

  lemma SortedPair(x: Span, y: Span)
    requires x.from <= y.from
    ensures SortSpans([x, y]) == [x, y]
  {
    assert [x, y][..1] == [x] && [x][..0] == [];
    assert SortSpans([x]) == InsertSpan([], x) == [x];
  }

  lemma PairSubstituted(s: Text, x: Span, y: Span)
    requires x.from < x.to <= y.from < y.to <= |s|
    ensures Substituted(s, [x, y], 0) == s[..x.from] + x.text + (s[x.to..y.from] + y.text + s[y.to..])
  {
    assert [x, y][1..] == [y];
    OneSubstituted(s, y, x.to);
  }

  lemma OneSubstituted(s: Text, y: Span, from: nat)
    requires from <= y.from < y.to <= |s|
    ensures Substituted(s, [y], from) == s[from..y.from] + y.text + s[y.to..]
  {
    assert [y][1..] == [];
  }
}
