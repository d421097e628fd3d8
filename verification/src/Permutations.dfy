/** Two lists of the same elements: taking matching elements out, one at a time. */
module Permutations {

  function Without<T>(s: seq<T>, i: nat): seq<T>
    requires i < |s|
  {
    s[..i] + s[i + 1..]
  }

  lemma RemoveOne<T>(s: seq<T>, i: nat)
    requires i < |s|
    ensures multiset(s) == multiset(Without(s, i)) + multiset{s[i]}
  {
    assert s == s[..i] + [s[i]] + s[i + 1..];
    assert multiset(s) == multiset(s[..i]) + multiset{s[i]} + multiset(s[i + 1..]);
  }

  lemma SameMembers<T>(a: seq<T>, b: seq<T>)
    requires multiset(a) == multiset(b)
    ensures forall x :: x in a <==> x in b
  {
    forall x ensures x in a <==> x in b {
      assert x in a <==> x in multiset(a);
      assert x in b <==> x in multiset(b);
    }
  }

  lemma BothEmpty<T>(b: seq<T>)
    requires multiset(b) == multiset{}
    ensures b == []
  {
    assert |multiset(b)| == 0;
  }

  /** The last element of `a` stands somewhere in `b`; without it the lists still agree. */
  lemma MatchLast<T>(a: seq<T>, b: seq<T>) returns (i: nat)
    requires a != [] && multiset(a) == multiset(b)
    ensures i < |b| && b[i] == a[|a| - 1]
    ensures multiset(a[..|a| - 1]) == multiset(Without(b, i))
  {
    var init, last := a[..|a| - 1], a[|a| - 1];
    assert a == init + [last];
    SameMembers(a, b);
    assert last in b;
    i :| 0 <= i < |b| && b[i] == last;
    RemoveOne(b, i);
    assert multiset(a) == multiset(init) + multiset{last};
    forall x ensures multiset(init)[x] == multiset(Without(b, i))[x] {
      assert multiset(a)[x] == multiset(b)[x];
    }
  }

  /** Taking an element out of all but the end of a list. */
  lemma WithoutInit<T>(s: seq<T>, i: nat)
    requires i < |s|
    ensures i == |s| - 1 ==> Without(s, i) == s[..|s| - 1]
    ensures i < |s| - 1 ==>
              Without(s, i) != [] && Without(s, i)[|s| - 2] == s[|s| - 1]
              && Without(s, i)[..|s| - 2] == Without(s[..|s| - 1], i)
  {
  }
}
