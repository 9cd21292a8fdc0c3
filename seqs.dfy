/** Array helpers the components lean on: `Array.prototype.filter` and `map`,
    and the order-preserving sublist relation that a filter always produces. */
module Seqs {

  /** `s.filter(f)`. */
  function Filter<T>(s: seq<T>, f: T -> bool): (r: seq<T>)
    ensures |r| <= |s|
    ensures forall i :: 0 <= i < |r| ==> f(r[i])
  {
    if s == [] then [] else Filter(s[..|s| - 1], f) + (if f(s[|s| - 1]) then [s[|s| - 1]] else [])
  }

  /** `s.map(f)`. */
  function Map<T, U>(s: seq<T>, f: T -> U): (r: seq<U>)
    ensures |r| == |s|
    ensures forall i :: 0 <= i < |s| ==> r[i] == f(s[i])
  {
    if s == [] then [] else Map(s[..|s| - 1], f) + [f(s[|s| - 1])]
  }

  /** The image of each element of a mapped middle part is in the whole. */
  lemma MapInMiddle<T, U>(front: seq<U>, s: seq<T>, f: T -> U, last: seq<U>, n: nat)
    requires n < |s|
    ensures f(s[n]) in front + Map(s, f) + last
  {
    assert (front + Map(s, f) + last)[|front| + n] == f(s[n]);
  }

  /** `s.some(f)`. */
  predicate Any<T>(s: seq<T>, f: T -> bool) {
    exists i :: 0 <= i < |s| && f(s[i])
  }

  /** `a` is `b` with some elements left out, the rest in their order. */
  predicate Subsequence<T(==)>(a: seq<T>, b: seq<T>)
    decreases |b|
  {
    if a == [] then true
    else if b == [] then false
    else if a[|a| - 1] == b[|b| - 1] then Subsequence(a[..|a| - 1], b[..|b| - 1])
    else Subsequence(a, b[..|b| - 1])
  }

  /** Every sequence is a subsequence of itself. */
  lemma {:induction false} SubsequenceReflexive<T>(s: seq<T>)
    ensures Subsequence(s, s)
  {
    if s != [] {
      SubsequenceReflexive(s[..|s| - 1]);
    }
  }

  /** A subsequence of a subsequence is a subsequence. */
  lemma {:induction false} SubsequenceTransitive<T>(a: seq<T>, b: seq<T>, c: seq<T>)
    requires Subsequence(a, b) && Subsequence(b, c)
    ensures Subsequence(a, c)
    decreases |c|
  {
    if a != [] && b != [] && c != [] {
      var a', b', c' := a[..|a| - 1], b[..|b| - 1], c[..|c| - 1];
      if b[|b| - 1] == c[|c| - 1] {
        if a[|a| - 1] == b[|b| - 1] {
          SubsequenceTransitive(a', b', c');
        } else {
          SubsequenceTransitive(a, b', c');
        }
      } else {
        SubsequenceTransitive(a, b, c');
        if a[|a| - 1] == c[|c| - 1] {
          SubsequenceDropLast(a, c');
        }
      }
    }
  }

  /** Dropping the last element of a subsequence keeps it a subsequence. */
  lemma {:induction false} SubsequenceDropLast<T>(a: seq<T>, b: seq<T>)
    requires a != [] && Subsequence(a, b)
    ensures Subsequence(a[..|a| - 1], b)
    decreases |b|, 1
  {
    var a' := a[..|a| - 1];
    if a' != [] {
      if a[|a| - 1] == b[|b| - 1] {
        assert Subsequence(a', b[..|b| - 1]);
        SubsequenceExtend(a', b[..|b| - 1], b[|b| - 1]);
        assert b[..|b| - 1] + [b[|b| - 1]] == b;
      } else {
        SubsequenceDropLast(a, b[..|b| - 1]);
        SubsequenceExtend(a', b[..|b| - 1], b[|b| - 1]);
        assert b[..|b| - 1] + [b[|b| - 1]] == b;
      }
    }
  }

  /** A subsequence of `b` is a subsequence of `b + [x]`. */
  lemma {:induction false} SubsequenceExtend<T>(a: seq<T>, b: seq<T>, x: T)
    requires Subsequence(a, b)
    ensures Subsequence(a, b + [x])
    decreases |b|, 2
  {
    var b' := b + [x];
    assert b'[..|b'| - 1] == b;
    if a != [] && a[|a| - 1] == x {
      SubsequenceDropLast(a, b);
    }
  }

  /** A filter keeps the order of what it keeps. */
  lemma {:induction false} FilterIsSubsequence<T>(s: seq<T>, f: T -> bool)
    ensures Subsequence(Filter(s, f), s)
  {
    if s != [] {
      var s' := s[..|s| - 1];
      var x := s[|s| - 1];
      FilterIsSubsequence(s', f);
      var r := Filter(s, f);
      if f(x) {
        assert r[..|r| - 1] == Filter(s', f);
      } else {
        assert r == Filter(s', f);
        SubsequenceExtend(r, s', x);
        assert s' + [x] == s;
      }
    }
  }

  /** An element survives the filter exactly when it is in the input and satisfies the test. */
  lemma {:induction false} FilterMembership<T>(s: seq<T>, f: T -> bool, x: T)
    ensures x in Filter(s, f) <==> x in s && f(x)
  {
    if s != [] {
      FilterMembership(s[..|s| - 1], f, x);
      assert s == s[..|s| - 1] + [s[|s| - 1]];
    }
  }

  /** Filtering with a test every element passes changes nothing. */
  lemma {:induction false} FilterKeepsAll<T>(s: seq<T>, f: T -> bool)
    requires forall i :: 0 <= i < |s| ==> f(s[i])
    ensures Filter(s, f) == s
  {
    if s != [] {
      FilterKeepsAll(s[..|s| - 1], f);
    }
  }

  /** Filtering appends: the filter of `s + [x]` is the filter of `s`, then `x` if it passes. */
  lemma FilterAppend<T>(s: seq<T>, f: T -> bool, x: T)
    ensures Filter(s + [x], f) == Filter(s, f) + (if f(x) then [x] else [])
  {
    assert (s + [x])[..|s + [x]| - 1] == s;
  }

  /** `multiset{x}` when `b`, else the empty multiset. */
  function OneIf<T>(b: bool, x: T): multiset<T> {
    if b then multiset{x} else multiset{}
  }

  /** Filtering adds the last element to the multiset exactly when it passes. */
  lemma FilterLastMultiset<T>(s: seq<T>, f: T -> bool)
    requires s != []
    ensures multiset(Filter(s, f)) == multiset(Filter(s[..|s| - 1], f)) + OneIf(f(s[|s| - 1]), s[|s| - 1])
  {
    var s', x := s[..|s| - 1], s[|s| - 1];
    var e: seq<T> := [];
    if f(x) {
      assert multiset(Filter(s', f) + [x]) == multiset(Filter(s', f)) + multiset{x};
    } else {
      assert Filter(s', f) + e == Filter(s', f);
    }
  }

  lemma AddOnes<T>(a1: multiset<T>, a2: multiset<T>, a3: multiset<T>, b: multiset<T>, x: T, c1: bool, c2: bool, c3: bool)
    requires a1 + a2 + a3 == b
    requires !(c1 && c2) && !(c1 && c3) && !(c2 && c3)
    ensures (a1 + OneIf(c1, x)) + (a2 + OneIf(c2, x)) + (a3 + OneIf(c3, x)) == b + OneIf(c1 || c2 || c3, x)
  {
  }

  /** Three disjoint tests whose union is `g` split `Filter(s, g)` into three
      parts, counting multiplicities. */
  lemma {:induction false} FilterPartition3<T>(s: seq<T>, f1: T -> bool, f2: T -> bool, f3: T -> bool, g: T -> bool)
    requires forall x :: g(x) == (f1(x) || f2(x) || f3(x))
    requires forall x :: !(f1(x) && f2(x)) && !(f1(x) && f3(x)) && !(f2(x) && f3(x))
    ensures multiset(Filter(s, f1)) + multiset(Filter(s, f2)) + multiset(Filter(s, f3)) == multiset(Filter(s, g))
  {
    if s != [] {
      var s', x := s[..|s| - 1], s[|s| - 1];
      FilterPartition3(s', f1, f2, f3, g);
      FilterLastMultiset(s, f1);
      FilterLastMultiset(s, f2);
      FilterLastMultiset(s, f3);
      FilterLastMultiset(s, g);
      AddOnes(multiset(Filter(s', f1)), multiset(Filter(s', f2)), multiset(Filter(s', f3)), multiset(Filter(s', g)), x, f1(x), f2(x), f3(x));
    }
  }

  /** Mapping commutes with filtering when the test `h` on an element is the
      test `g` on its image. */
  lemma {:induction false} MapFilter<T, U>(s: seq<T>, f: T -> U, g: U -> bool, h: T -> bool)
    requires forall x :: h(x) == g(f(x))
    ensures Map(Filter(s, h), f) == Filter(Map(s, f), g)
  {
    if s != [] {
      var s' := s[..|s| - 1];
      var x := s[|s| - 1];
      MapFilter(s', f, g, h);
      assert Map(s, f)[..|s| - 1] == Map(s', f);
      if h(x) {
        var r := Filter(s', h);
        assert (r + [x])[..|r + [x]| - 1] == r;
      }
    }
  }

  /** Filtering distributes over concatenation. */
  lemma {:induction false} FilterConcat<T>(a: seq<T>, b: seq<T>, f: T -> bool)
    ensures Filter(a + b, f) == Filter(a, f) + Filter(b, f)
    decreases |b|
  {
    if b != [] {
      var b' := b[..|b| - 1];
      var x := b[|b| - 1];
      assert a + b == (a + b') + [x];
      assert b == b' + [x];
      FilterAppend(a + b', f, x);
      FilterAppend(b', f, x);
      FilterConcat(a, b', f);
    } else {
      assert a + b == a;
    }
  }

  /** Filtering with a test no element passes leaves nothing. */
  lemma {:induction false} FilterKeepsNone<T>(s: seq<T>, f: T -> bool)
    requires forall i :: 0 <= i < |s| ==> !f(s[i])
    ensures Filter(s, f) == []
  {
    if s != [] {
      FilterKeepsNone(s[..|s| - 1], f);
    }
  }
}
